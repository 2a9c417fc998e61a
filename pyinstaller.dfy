/**
 * `PyInstArchive` of app/utils/pyinstaller/pyinstaller.py: reading the PyInstaller trailer at the
 * end of an executable and listing the entries of its table of contents.
 *
 * The file is given as its bytes; the table of contents is what `marshal.load` yields at the
 * overlay, and the text of the `OSError` a seek before the start of the file raises is a parameter.
 */
module PyInstaller {
  import opened Common
  import opened Text

  /** The cookie magic `PYZ\0`. */
  const PyzMagic: seq<bv8> := [0x50, 0x59, 0x5a, 0x00]

  /** `struct.unpack('!I', b)`: four bytes, most significant first. */
  function BigEndian32(b: seq<bv8>): (n: nat)
    requires |b| == 4
    ensures n < 0x1_0000_0000
  {
    ((b[0] as nat * 256 + b[1] as nat) * 256 + b[2] as nat) * 256 + b[3] as nat
  }

  /** One item of the marshalled table of contents: a 7-tuple, or something that fails to unpack. */
  datatype TocItem =
    | Entry(name: string, entrySize: int, offset: int, compSize: int, flag: int, typeCompressed: int, spos: int)
    | Malformed(message: string)

  /** The compression tag of an entry: 0 is stored, 1 is zlib, anything else unknown. */
  function CompressionTag(t: int): (c: char)
    ensures c in {'s', 'z', '?'}
    ensures c == 's' <==> t == 0
    ensures c == 'z' <==> t == 1
  {
    if t == 0 then 's' else if t == 1 then 'z' else '?'
  }

  /** The overlay position `open` computes for a file, or the message of the error it raises. */
  function OpenOutcome(content: seq<bv8>, seekError: string): Result<int, string>
  {
    if |content| < 8 then Err("Error opening file: " + seekError)
    else if content[|content| - 8..|content| - 4] != PyzMagic then Err("Error opening file: Invalid PyInstaller archive")
    else if BigEndian32(content[|content| - 4..]) + 8 > |content| then Err("Error opening file: " + seekError)
    else Ok(|content| - BigEndian32(content[|content| - 4..]) - 8)
  }

  /**
   * `open` succeeds exactly when the four bytes before the last four are `PYZ\0` and the size in
   * the last four fits in the file; the overlay then ends eight bytes before the end of the file.
   */
  lemma OpenSucceedsIff(content: seq<bv8>, seekError: string)
    ensures OpenOutcome(content, seekError).Ok? <==>
      |content| >= 8 && content[|content| - 8..|content| - 4] == PyzMagic && BigEndian32(content[|content| - 4..]) + 8 <= |content|
    ensures OpenOutcome(content, seekError).Ok? ==>
      OpenOutcome(content, seekError).value + BigEndian32(content[|content| - 4..]) + 8 == |content|
    ensures OpenOutcome(content, seekError).Err? ==> StartsWith(OpenOutcome(content, seekError).error, "Error opening file: ")
  {
  }

  /** The names of the entries before the first malformed one. */
  function TocNames(items: seq<TocItem>): seq<string>
  {
    if |items| == 0 || items[0].Malformed? then [] else [items[0].name] + TocNames(items[1..])
  }

  /** The message of the first malformed entry, if any. */
  function TocError(items: seq<TocItem>): Option<string>
  {
    if |items| == 0 then None else if items[0].Malformed? then Some(items[0].message) else TocError(items[1..])
  }

  /** With no malformed entry, every entry contributes its name, in order. */
  lemma {:induction false} TocNamesAll(items: seq<TocItem>)
    requires TocError(items).None?
    ensures |TocNames(items)| == |items|
    ensures forall i | 0 <= i < |items| :: items[i].Entry? && TocNames(items)[i] == items[i].name
  {
    if |items| > 0 {
      TocNamesAll(items[1..]);
    }
  }

  class PyInstArchive {
    const filePath: string
    /** Whether `open` got as far as opening the file (`self.fPtr` exists). */
    var hasFile: bool
    var content: seq<bv8>
    var overlaySize: nat
    var overlayPos: nat
    var entrypoints: seq<string>

    constructor (path: string)
      ensures filePath == path && !hasFile && overlaySize == 0 && overlayPos == 0 && entrypoints == []
    {
      filePath := path;
      hasFile := false;
      content := [];
      overlaySize := 0;
      overlayPos := 0;
      entrypoints := [];
    }

    /**
     * `open`. `file` is the file's bytes, or the message of the error opening it raises. The size
     * field is set as soon as the last four bytes are read, before the magic is checked.
     */
    method Open(file: Result<seq<bv8>, string>, seekError: string) returns (raised: Option<string>)
      modifies this`hasFile, this`content, this`overlaySize, this`overlayPos
      ensures file.Err? ==> raised == Some("Error opening file: " + file.error) && unchanged(this)
      ensures file.Ok? ==> hasFile && content == file.value
      ensures file.Ok? && |file.value| < 4 ==>
        raised == Some("Error opening file: " + seekError) && overlaySize == old(overlaySize) && overlayPos == old(overlayPos)
      ensures file.Ok? && |file.value| >= 4 ==> overlaySize == BigEndian32(file.value[|file.value| - 4..])
      ensures file.Ok? && |file.value| >= 4 ==>
        match OpenOutcome(file.value, seekError)
        case Ok(pos) => raised == None && overlayPos == pos
        case Err(message) => raised == Some(message) && overlayPos == old(overlayPos)
    {
      if file.Err? {
        return Some("Error opening file: " + file.error);
      }
      hasFile := true;
      content := file.value;
      var n := |content|;
      if n < 4 {
        return Some("Error opening file: " + seekError);
      }
      overlaySize := BigEndian32(content[n - 4..]);
      if n < 8 {
        return Some("Error opening file: " + seekError);
      }
      if content[n - 8..n - 4] != PyzMagic {
        return Some("Error opening file: Invalid PyInstaller archive");
      }
      if overlaySize + 8 > n {
        return Some("Error opening file: " + seekError);
      }
      overlayPos := n - overlaySize - 8;
      raised := None;
    }

    /**
     * `parseTOC` over the table `marshal.load` yields (or the message it raises). Each entry
     * appends its name; the compression tag is computed for a throw-away record only. A malformed
     * entry raises after the names before it have been appended.
     */
    method ParseTOC(toc: Result<seq<TocItem>, string>, missingFile: string) returns (raised: Option<string>)
      modifies this`entrypoints
      ensures !hasFile ==> raised == Some("Error parsing TOC: " + missingFile) && entrypoints == old(entrypoints)
      ensures hasFile && toc.Err? ==> raised == Some("Error parsing TOC: " + toc.error) && entrypoints == old(entrypoints)
      ensures hasFile && toc.Ok? ==> entrypoints == old(entrypoints) + TocNames(toc.value)
      ensures hasFile && toc.Ok? ==>
        raised == (if TocError(toc.value).Some? then Some("Error parsing TOC: " + TocError(toc.value).value) else None)
    {
      if !hasFile {
        return Some("Error parsing TOC: " + missingFile);
      }
      if toc.Err? {
        return Some("Error parsing TOC: " + toc.error);
      }
      var items := toc.value;
      for k := 0 to |items|
        invariant old(entrypoints) + TocNames(items) == entrypoints + TocNames(items[k..])
        invariant TocError(items) == TocError(items[k..])
      {
        assert items[k..][0] == items[k] && items[k..][1..] == items[k + 1..];
        match items[k] {
          case Malformed(message) =>
            return Some("Error parsing TOC: " + message);
          case Entry(name, _, _, _, _, typeCompressed, _) =>
            assert entrypoints + ([name] + TocNames(items[k + 1..])) == (entrypoints + [name]) + TocNames(items[k + 1..]);
            entrypoints := entrypoints + [name];
            var tag := CompressionTag(typeCompressed);
        }
      }
      assert entrypoints + [] == entrypoints;
      raised := None;
    }
  }

  /**
   * `ExtractPYInstaller`: opens the archive and parses its table; any failure is re-raised with
   * the message of the error it caught.
   */
  method ExtractPYInstaller(path: string, file: Result<seq<bv8>, string>, seekError: string,
                            toc: Result<seq<TocItem>, string>, missingFile: string)
    returns (r: Result<PyInstArchive, string>)
    ensures file.Ok? && OpenOutcome(file.value, seekError).Ok? && toc.Ok? && TocError(toc.value).None? <==> r.Ok?
    ensures r.Ok? ==> fresh(r.value) && r.value.filePath == path
    ensures r.Ok? ==> r.value.overlayPos == OpenOutcome(file.value, seekError).value && r.value.entrypoints == TocNames(toc.value)
    ensures r.Err? ==> StartsWith(r.error, "Error opening file: ") || StartsWith(r.error, "Error parsing TOC: ")
  {
    var arch := new PyInstArchive(path);
    var openError := arch.Open(file, seekError);
    if openError.Some? {
      if file.Ok? && |file.value| < 4 {
        assert OpenOutcome(file.value, seekError).Err?;
      }
      return Err(openError.value);
    }
    var parsed := arch.ParseTOC(toc, missingFile);
    if parsed.Some? {
      return Err(parsed.value);
    }
    return Ok(arch);
  }
}
