/**
 * `PyBitDecompiler` of backend/pybit.py: file-type detection by magic bytes, the dispatch on the
 * detected type, and the result record `analyze_exe` builds.
 *
 * `is_pyinstaller`, `is_py2exe`, `extract_py2exe`, `analyze_py` and `analyze_pyc` are not defined in
 * the file; their answers are the fields of `ExeProbe`. `extract_pyinstaller` is modelled on the
 * outcome of its extractor subprocess.
 */
module PyBit {
  import opened Common
  import opened Text

  const MzMagic: seq<bv8> := [0x4d, 0x5a]
  const PycMagic: seq<bv8> := [0x03, 0xf3, 0x0d, 0x0a]
  const PycMagicAlt: seq<bv8> := [0xee, 0x0c, 0x0d, 0x0a]

  /**
   * `detect_file_type`. `content` is the file; `firstLine` is its first line read as UTF-8 text,
   * or None when reading it as text raises.
   */
  function DetectFileType(content: seq<bv8>, firstLine: Option<string>): string
  {
    var magic := Take(content, 4);
    if MzMagic <= magic then "exe"
    else if PycMagic <= magic || PycMagicAlt <= magic then "pyc"
    else if firstLine.Some? && Contains(Lower(firstLine.value), "python") then "py"
    else "unknown"
  }

  /** Testing a prefix of at most four bytes on the first four bytes is testing it on the file. */
  lemma MagicPrefix(content: seq<bv8>, p: seq<bv8>)
    requires |p| <= 4
    ensures p <= Take(content, 4) <==> p <= content
  {
    if p <= content {
      assert Take(content, 4)[..|p|] == content[..|p|];
    }
  }

  /**
   * `MZ` wins over the bytecode magics, which win over the text check; a decode failure or any
   * other content is `unknown`. The result is always one of the four names.
   */
  lemma DetectFileTypeCases(content: seq<bv8>, firstLine: Option<string>)
    ensures DetectFileType(content, firstLine) == "exe" <==> MzMagic <= content
    ensures DetectFileType(content, firstLine) == "pyc" <==>
      !(MzMagic <= content) && (PycMagic <= content || PycMagicAlt <= content)
    ensures DetectFileType(content, firstLine) == "py" <==>
      !(MzMagic <= content) && !(PycMagic <= content) && !(PycMagicAlt <= content)
      && firstLine.Some? && Contains(Lower(firstLine.value), "python")
    ensures DetectFileType(content, firstLine) in {"exe", "pyc", "py", "unknown"}
  {
    MagicPrefix(content, MzMagic);
    MagicPrefix(content, PycMagic);
    MagicPrefix(content, PycMagicAlt);
  }

  /** The analyses `analyze_file` hands a detected type to. */
  datatype Analyzer = AnalyzePy | AnalyzePyc | AnalyzeExe

  /** The dispatch of `analyze_file`; any other type raises `ValueError` with this message. */
  function Dispatch(fileType: string): Result<Analyzer, string>
  {
    if fileType == "py" then Ok(AnalyzePy)
    else if fileType == "pyc" then Ok(AnalyzePyc)
    else if fileType == "exe" then Ok(AnalyzeExe)
    else Err("Unsupported file type: " + fileType)
  }

  /** A detected file is rejected exactly when its type is `unknown`, and each other type has its own analysis. */
  lemma DispatchDetected(content: seq<bv8>, firstLine: Option<string>)
    ensures var t := DetectFileType(content, firstLine);
      (Dispatch(t).Err? <==> t == "unknown")
      && (Dispatch(t).Err? ==> Dispatch(t).error == "Unsupported file type: unknown")
      && (Dispatch(t) == Ok(AnalyzeExe) <==> MzMagic <= content)
  {
    DetectFileTypeCases(content, firstLine);
  }

  datatype ExtractedFile = ExtractedFile(name: string, fileType: string, path: string)

  /** The dictionary `analyze_exe` returns. */
  datatype ExeResult = ExeResult(
    fileName: string, fileType: string, pythonEmbedded: bool, compiler: Option<string>,
    extractedFiles: seq<ExtractedFile>, decompiledCode: seq<string>)

  /**
   * How the `pyinstxtractor` subprocess of `extract_pyinstaller` ends: a non-zero exit raises
   * `CalledProcessError`; otherwise `walked` is every path `os.walk` finds under the output directory.
   */
  datatype ExtractorRun = ExtractorFailed | ExtractorWalked(walked: seq<string>)

  /** The bytecode files among the walked paths, in walk order. */
  function PycFiles(walked: seq<string>): (r: seq<string>)
    ensures |r| <= |walked|
  {
    if |walked| == 0 then []
    else PycFiles(walked[..|walked| - 1]) + (if EndsWith(walked[|walked| - 1], ".pyc") then [walked[|walked| - 1]] else [])
  }

  /** Exactly the walked `.pyc` paths are kept. */
  lemma {:induction false} PycFilesMembers(walked: seq<string>)
    ensures forall f :: f in PycFiles(walked) <==> f in walked && EndsWith(f, ".pyc")
  {
    if |walked| > 0 {
      var init := walked[..|walked| - 1];
      PycFilesMembers(init);
      assert walked == init + [walked[|walked| - 1]];
      assert forall f :: f in walked <==> f in init || f == walked[|walked| - 1];
    }
  }

  /** What `extract_pyinstaller` returns for an extractor outcome. */
  function PyInstallerFiles(run: ExtractorRun): seq<string>
  {
    if run.ExtractorWalked? then PycFiles(run.walked) else []
  }

  /** `extract_pyinstaller`: no files when the extractor fails, otherwise the walked `.pyc` files. */
  method ExtractPyInstaller(run: ExtractorRun) returns (files: seq<string>)
    ensures files == PyInstallerFiles(run)
    ensures forall f | f in files :: EndsWith(f, ".pyc")
  {
    if run.ExtractorFailed? {
      return [];
    }
    var walked := run.walked;
    files := [];
    for k := 0 to |walked|
      invariant files == PycFiles(walked[..k])
    {
      assert walked[..k + 1][..k] == walked[..k];
      if EndsWith(walked[k], ".pyc") {
        files := files + [walked[k]];
      }
    }
    assert walked[..|walked|] == walked;
    PycFilesMembers(walked);
  }

  /**
   * What the undefined helpers answer for one file: whether it is a PyInstaller or py2exe bundle,
   * how the PyInstaller extractor ends, the paths `extract_py2exe` yields, and the decompiled text
   * `analyze_pyc` gives for a path.
   */
  datatype ExeProbe = ExeProbe(
    isPyInstaller: bool, isPy2exe: bool, pyInstallerRun: ExtractorRun, py2exeFiles: seq<string>,
    decompiled: string -> string)

  /** The files the chosen extractor yields: PyInstaller first, then py2exe, else none. */
  function Extracted(probe: ExeProbe): seq<string>
  {
    if probe.isPyInstaller then PyInstallerFiles(probe.pyInstallerRun) else if probe.isPy2exe then probe.py2exeFiles else []
  }

  function Compiler(probe: ExeProbe): Option<string>
  {
    if probe.isPyInstaller then Some("PyInstaller") else if probe.isPy2exe then Some("py2exe") else None
  }

  function Record(path: string): ExtractedFile
  {
    ExtractedFile(AfterLast(path, '/'), "pyc", path)
  }

  /** One pair per extracted file, in order: its record and its decompiled text. */
  predicate RecordsFiles(records: seq<ExtractedFile>, codes: seq<string>, files: seq<string>, decompiled: string -> string)
  {
    |records| == |files| && |codes| == |files|
    && forall i | 0 <= i < |files| :: records[i] == Record(files[i]) && codes[i] == decompiled(files[i])
  }

  /** The loop of `analyze_exe` over the extracted files, appending to both lists. */
  method AppendExtracted(files: seq<string>, decompiled: string -> string)
    returns (records: seq<ExtractedFile>, codes: seq<string>)
    ensures RecordsFiles(records, codes, files, decompiled)
  {
    records, codes := [], [];
    for k := 0 to |files|
      invariant RecordsFiles(records, codes, files[..k], decompiled)
    {
      var code := decompiled(files[k]);
      records := records + [Record(files[k])];
      codes := codes + [code];
    }
    assert files[..|files|] == files;
  }

  /** `analyze_exe`. */
  method AnalyzeExecutable(filePath: string, probe: ExeProbe) returns (result: ExeResult)
    ensures result.fileName == AfterLast(filePath, '/') && result.fileType == "exe"
    ensures result.pythonEmbedded <==> result.compiler.Some?
    ensures result.compiler == Compiler(probe)
    ensures RecordsFiles(result.extractedFiles, result.decompiledCode, Extracted(probe), probe.decompiled)
    ensures probe.isPyInstaller ==>
      forall i | 0 <= i < |result.extractedFiles| :: EndsWith(result.extractedFiles[i].path, ".pyc")
  {
    result := ExeResult(AfterLast(filePath, '/'), "exe", false, None, [], []);
    if probe.isPyInstaller {
      var extracted := ExtractPyInstaller(probe.pyInstallerRun);
      var records, codes := AppendExtracted(extracted, probe.decompiled);
      result := result.(pythonEmbedded := true, compiler := Some("PyInstaller"), extractedFiles := records, decompiledCode := codes);
    } else if probe.isPy2exe {
      var records, codes := AppendExtracted(probe.py2exeFiles, probe.decompiled);
      result := result.(pythonEmbedded := true, compiler := Some("py2exe"), extractedFiles := records, decompiledCode := codes);
    }
  }
}
