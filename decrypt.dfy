/**
 * `decrypt_file`'s decision: a secrets file is either used as it is, or
 * decrypted with sops into a temporary file whose name is used instead.
 * The file's text is not modelled; what the YAML or JSON loader makes of it
 * is an input, and so is the exit status of `sops`.
 */
module Decrypt {
  import opened Wrappers
  import opened Errors
  import opened Values

  /** The loaders the file can be read with. */
  datatype Format = Yaml | Json

  /** What the loader made of the file: a document, or the exception it raised. */
  datatype ParseOutcome = Loaded(data: Val) | Raised(error: ParseError)

  /** Use the file as it is, or run sops on it. */
  datatype Decision = Passthrough | DecryptWithSops

  /** The path that is yielded, and the sops command run to produce it, if any. */
  datatype Opened = Opened(path: string, sops: Option<seq<string>>)

  /** The last index of `c` in `s`, or -1 when `c` does not occur. */
  function LastIndexOf(s: string, c: char): (r: int)
    ensures -1 <= r < |s|
    ensures r >= 0 ==> s[r] == c
    ensures forall i :: r < i < |s| ==> s[i] != c
  {
    if s == [] then -1
    else if s[|s| - 1] == c then |s| - 1
    else LastIndexOf(s[..|s| - 1], c)
  }

  /**
   * The extension `os.path.splitext` returns on a POSIX path: from the last
   * dot to the end, provided that dot comes after the last '/' and the file
   * name has a character other than '.' before it; otherwise empty. So a
   * file called `.yaml` has no extension.
   */
  function Ext(p: string): (r: string)
    ensures r != "" ==> |r| <= |p| && r == p[|p| - |r|..] && r[0] == '.'
    ensures forall i :: 0 < i < |r| ==> r[i] != '.' && r[i] != '/'
  {
    var sep := LastIndexOf(p, '/');
    var dot := LastIndexOf(p, '.');
    if dot > sep && exists i :: sep < i < dot && p[i] != '.' then p[dot..] else ""
  }

  /** A file name whose stem ends in an ordinary character has the extension after its last dot. */
  lemma ExtOfNamedFile(stem: string, x: string)
    requires stem != [] && stem[|stem| - 1] != '.' && stem[|stem| - 1] != '/'
    requires forall i :: 0 <= i < |x| ==> x[i] != '.' && x[i] != '/'
    ensures Ext(stem + "." + x) == "." + x
  {
    var p := stem + "." + x;
    var d := |stem|;
    assert p[d] == '.';
    assert forall i :: d < i < |p| ==> p[i] == x[i - d - 1];
    assert LastIndexOf(p, '.') == d;
    assert LastIndexOf(p, '/') < d - 1;
    assert p[d - 1] != '.';
    assert p[d..] == "." + x;
  }

  /** A hidden file (a name that starts with its only dot) has no extension. */
  lemma HiddenFileHasNoExt(dir: string, x: string)
    requires forall i :: 0 <= i < |x| ==> x[i] != '.' && x[i] != '/'
    ensures Ext(dir + "/." + x) == ""
  {
    var p := dir + "/." + x;
    var d := |dir| + 1;
    assert p[d] == '.' && p[d - 1] == '/';
    assert forall i :: d < i < |p| ==> p[i] == x[i - d - 1];
    assert LastIndexOf(p, '.') == d;
    assert LastIndexOf(p, '/') == d - 1;
  }

  /** The loader chosen by the extension: `.yaml` and `.yml` are YAML, `.json` is JSON. */
  function FormatOf(ext: string): (r: Option<Format>)
    ensures r == Some(Yaml) <==> ext in {".yaml", ".yml"}
    ensures r == Some(Json) <==> ext == ".json"
  {
    if ext == ".yaml" || ext == ".yml" then Some(Yaml)
    else if ext == ".json" then Some(Json)
    else None
  }

  /** The one loader exception that is taken to mean "not a sops file". */
  function Tolerated(f: Format): ParseError
  {
    match f
    case Yaml => ScannerError
    case Json => JSONDecodeError
  }

  /** `w` occurs in `s` starting at index `i`. */
  predicate OccursAt(w: string, s: string, i: int)
  {
    0 <= i <= |s| - |w| && s[i..i + |w|] == w
  }

  /** `w` occurs in `s` as a contiguous piece. */
  predicate Occurs(w: string, s: string)
  {
    exists i :: 0 <= i <= |s| - |w| && OccursAt(w, s, i)
  }

  /**
   * Python's `'sops' in data`: a key of a mapping, an item of a list, a
   * substring of a string; on any other value the test raises.
   */
  function SopsIn(data: Val): (r: Result<bool, Error>)
    ensures data.Map? ==> r == Ok("sops" in data.fields)
    ensures data.Seq? ==> r == Ok(Str("sops") in data.items)
    ensures data.Str? ==> r == Ok(Occurs("sops", data.text))
    ensures !(data.Map? || data.Seq? || data.Str?) ==> r.Err? && r.error.TypeError?
  {
    match data
    case Map(fields) => Ok("sops" in fields)
    case Seq(items) => Ok(Str("sops") in items)
    case Str(text) => Ok(Occurs("sops", text))
    case _ => Err(TypeError("argument is not iterable"))
  }

  /**
   * The decision for the file at `path`, given what its loader makes of it.
   * An extension with no loader leaves `encrypted_data` unassigned, so the
   * membership test raises `UnboundLocalError`; the loader's own tolerated
   * exception means pass through; any other exception propagates.
   */
  function Classify(path: string, outcome: ParseOutcome): (r: Result<Decision, Error>)
    ensures FormatOf(Ext(path)).None? ==> r == Err(UnboundLocalError("encrypted_data"))
    ensures r == Ok(DecryptWithSops) <==>
              FormatOf(Ext(path)).Some? && outcome.Loaded? && SopsIn(outcome.data) == Ok(true)
    ensures r == Ok(Passthrough) <==>
              FormatOf(Ext(path)).Some? &&
              (outcome == Raised(Tolerated(FormatOf(Ext(path)).value)) ||
               (outcome.Loaded? && SopsIn(outcome.data) == Ok(false)))
    ensures FormatOf(Ext(path)).Some? && outcome.Raised? &&
            outcome.error != Tolerated(FormatOf(Ext(path)).value) ==>
              r == Err(ParseFailure(outcome.error))
    ensures FormatOf(Ext(path)).Some? && outcome.Loaded? && SopsIn(outcome.data).Err? ==>
              r == Err(SopsIn(outcome.data).error)
  {
    var format := FormatOf(Ext(path));
    if format.None? then Err(UnboundLocalError("encrypted_data"))
    else match outcome
      case Raised(e) =>
        if e == Tolerated(format.value) then Ok(Passthrough) else Err(ParseFailure(e))
      case Loaded(data) =>
        var sops :- SopsIn(data);
        if sops then Ok(DecryptWithSops) else Ok(Passthrough)
  }

  /** The decryption command: write the plaintext of `path` to `tmp`. */
  function SopsArgv(tmp: string, path: string): seq<string>
  {
    ["sops", "--output", tmp, "--decrypt", path]
  }

  /**
   * The whole context manager up to its `yield`: the path it yields and the
   * sops call it made, or the exception it raised. A failing sops call
   * raises `CalledProcessError`.
   */
  function DecryptFile(path: string, outcome: ParseOutcome, tmp: string, sopsExit: int): (r: Result<Opened, Error>)
    ensures r.Ok? <==> (Classify(path, outcome) == Ok(Passthrough) ||
                        (Classify(path, outcome) == Ok(DecryptWithSops) && sopsExit == 0))
    ensures Classify(path, outcome) == Ok(Passthrough) ==> r == Ok(Opened(path, None))
    ensures Classify(path, outcome) == Ok(DecryptWithSops) && sopsExit == 0 ==>
              r == Ok(Opened(tmp, Some(SopsArgv(tmp, path))))
    ensures Classify(path, outcome) == Ok(DecryptWithSops) && sopsExit != 0 ==>
              r == Err(CalledProcessError(SopsArgv(tmp, path), sopsExit))
    ensures Classify(path, outcome).Err? ==> r == Err(Classify(path, outcome).error)
  {
    var decision :- Classify(path, outcome);
    match decision
    case Passthrough => Ok(Opened(path, None))
    case DecryptWithSops =>
      if sopsExit == 0 then Ok(Opened(tmp, Some(SopsArgv(tmp, path))))
      else Err(CalledProcessError(SopsArgv(tmp, path), sopsExit))
  }

  /** `.yml` is read exactly as `.yaml` is. */
  lemma YmlAndYamlAgree(stem: string, outcome: ParseOutcome, tmp: string, sopsExit: int)
    requires stem != [] && stem[|stem| - 1] != '.' && stem[|stem| - 1] != '/'
    ensures Classify(stem + ".yml", outcome) == Classify(stem + ".yaml", outcome)
    ensures DecryptFile(stem + ".yml", outcome, tmp, sopsExit).Ok? ==
            DecryptFile(stem + ".yaml", outcome, tmp, sopsExit).Ok?
  {
    ExtOfNamedFile(stem, "yml");
    ExtOfNamedFile(stem, "yaml");
    assert stem + ".yml" == stem + "." + "yml";
    assert stem + ".yaml" == stem + "." + "yaml";
  }

  /** A `.json` file passes through on a JSON decode error, and every other loader error propagates. */
  lemma JsonToleratesOnlyDecodeErrors(stem: string)
    requires stem != [] && stem[|stem| - 1] != '.' && stem[|stem| - 1] != '/'
    ensures Classify(stem + ".json", Raised(JSONDecodeError)) == Ok(Passthrough)
    ensures forall e :: e != JSONDecodeError ==> Classify(stem + ".json", Raised(e)) == Err(ParseFailure(e))
  {
    ExtOfNamedFile(stem, "json");
    assert stem + ".json" == stem + "." + "json";
  }

  /** A `.yaml` file passes through on a YAML scanner error, and every other loader error propagates. */
  lemma YamlToleratesOnlyScannerErrors(stem: string)
    requires stem != [] && stem[|stem| - 1] != '.' && stem[|stem| - 1] != '/'
    ensures Classify(stem + ".yaml", Raised(ScannerError)) == Ok(Passthrough)
    ensures forall e :: e != ScannerError ==> Classify(stem + ".yaml", Raised(e)) == Err(ParseFailure(e))
  {
    ExtOfNamedFile(stem, "yaml");
    assert stem + ".yaml" == stem + "." + "yaml";
  }

  /** A hidden file called `.yaml` is not read at all, and the decision fails. */
  lemma HiddenYamlFails(dir: string, outcome: ParseOutcome)
    ensures Classify(dir + "/.yaml", outcome) == Err(UnboundLocalError("encrypted_data"))
  {
    HiddenFileHasNoExt(dir, "yaml");
    assert dir + "/." + "yaml" == dir + "/.yaml";
  }

  /**
   * Whenever no sops call is made, the original path is what is yielded; when
   * one is made, the yielded path is the temporary file it wrote.
   */
  lemma YieldedPath(path: string, outcome: ParseOutcome, tmp: string, sopsExit: int)
    requires DecryptFile(path, outcome, tmp, sopsExit).Ok?
    ensures var o := DecryptFile(path, outcome, tmp, sopsExit).value;
            (o.sops.None? ==> o.path == path) &&
            (o.sops.Some? ==> o.path == tmp && o.sops.value[2] == tmp && o.sops.value[4] == path)
  {
  }
}
