/**
 * The Flask upload endpoint of app/main.py: the extension allow-list and the order in which
 * `upload_file` rejects a request before anything is saved.
 */
module UploadGate {
  import opened Common
  import opened Text

  const AllowedExtensions: set<string> := {"exe", "pyc", "jar", "dll"}

  /** `allowed_file`: the name has a dot and its last extension, lower-cased, is allowed. */
  predicate AllowedFile(filename: string)
  {
    '.' in filename && Lower(AfterLast(filename, '.')) in AllowedExtensions
  }

  /**
   * A name is allowed iff some dot is followed by a dot-free, allowed extension: only the text
   * after the last dot is compared, and case does not matter.
   */
  lemma AllowedFileIff(filename: string)
    ensures AllowedFile(filename) <==>
      exists i | 0 <= i < |filename| :: filename[i] == '.' && '.' !in filename[i + 1..] && Lower(filename[i + 1..]) in AllowedExtensions
  {
    if AllowedFile(filename) {
      var r := AfterLast(filename, '.');
      var i := |filename| - |r| - 1;
      assert filename[i + 1..] == r;
    }
    forall i | 0 <= i < |filename| && filename[i] == '.' && '.' !in filename[i + 1..]
      ensures AfterLast(filename, '.') == filename[i + 1..]
    {
      AfterLastUnique(filename, '.', i);
    }
  }

  /** Whatever precedes the last dot, the name is judged by the extension after it alone. */
  lemma AllowedFileExtension(stem: string, ext: string)
    requires '.' !in ext
    ensures AllowedFile(stem + "." + ext) <==> Lower(ext) in AllowedExtensions
  {
    var name := stem + "." + ext;
    assert name[|stem|] == '.' && name[|stem| + 1..] == ext;
    AfterLastUnique(name, '.', |stem|);
  }

  /** An upper-case extension after an earlier dot is allowed. */
  lemma AllowedUpperCase(stem: string)
    ensures AllowedFile(stem + ".tar" + ".EXE")
  {
    AllowedFileExtension(stem + ".tar", "EXE");
    assert stem + ".tar" + ".EXE" == stem + ".tar" + "." + "EXE";
    assert Lower("EXE") == "exe";
  }

  /** A trailing dot leaves an empty extension, which is not allowed. */
  lemma TrailingDotRejected(stem: string)
    ensures !AllowedFile(stem + ".")
  {
    AllowedFileExtension(stem, "");
    assert stem + "." == stem + "." + "";
  }

  /** Only the last extension counts. */
  lemma LastExtensionDecides(stem: string)
    ensures !AllowedFile(stem + ".exe" + ".txt")
  {
    AllowedFileExtension(stem + ".exe", "txt");
    assert stem + ".exe" + ".txt" == stem + ".exe" + "." + "txt";
    assert Lower("txt") == "txt";
  }

  /** The JSON response of `upload_file`, with its HTTP status. */
  datatype Response =
    | JsonError(status: nat, error: string)
    | Analysis(fileType: string, webhook: string, pythonVersion: string, fileSize: string, analysisComplete: bool)

  /** `simulate_analysis`: fixed fields around the formatted size of the saved file. */
  function SimulatedAnalysis(fileSizeText: string): Response
  {
    Analysis("Windows Executable", "https://discord.com/api/webhooks/1234567890/abcdefghijklmnopqrstuvwxyz1234567890",
             "3.9", fileSizeText, true)
  }

  /**
   * `upload_file`. `part` is the file name of the `file` form part, if any; `processed` is what
   * saving and measuring the file yields: the size text, or the message of the exception raised.
   */
  function UploadFile(part: Option<string>, processed: Result<string, string>): Response
  {
    if part.None? then JsonError(400, "No file part")
    else if part.value == "" then JsonError(400, "No selected file")
    else if !AllowedFile(part.value) then JsonError(400, "File type not allowed")
    else match processed
      case Err(message) => JsonError(500, message)
      case Ok(size) => SimulatedAnalysis(size)
  }

  /**
   * The checks run in a fixed order and the first failure decides the 400 answer; a request that
   * passes them all is answered 500 on an exception and with the analysis otherwise.
   */
  lemma UploadCascade(part: Option<string>, processed: Result<string, string>)
    ensures part.None? ==> UploadFile(part, processed) == JsonError(400, "No file part")
    ensures part == Some("") ==> UploadFile(part, processed) == JsonError(400, "No selected file")
    ensures part.Some? && part.value != "" && !AllowedFile(part.value) ==>
      UploadFile(part, processed) == JsonError(400, "File type not allowed")
    ensures (UploadFile(part, processed).JsonError? && UploadFile(part, processed).status == 400) <==>
      part.None? || part.value == "" || !AllowedFile(part.value)
    ensures UploadFile(part, processed).Analysis? <==>
      part.Some? && AllowedFile(part.value) && processed.Ok?
    ensures UploadFile(part, processed).Analysis? ==>
      UploadFile(part, processed).fileSize == processed.value && UploadFile(part, processed).analysisComplete
  {
    if part.Some? && part.value == "" {
      assert !AllowedFile(part.value);
    }
  }
}
