/** The handlers that only choose a response: `get_version` and `get_file`.
    The filesystem is a parameter: `primaryExists` says whether
    `fs::metadata("../yukari/build/yukari-ui")` succeeds, and `files` maps each
    path that `fs::read` can read to its bytes. */
module Handlers {
  import opened Http

  const VersionText: string := "yukari-engine: 0.1.0"
  const PrimaryRoot: string := "../yukari/build/yukari-ui/"
  const SecondaryRoot: string := "../yukari-ui/"
  const FileNotFound: string := "File not found"

  /** `get_version`: always 200 with the fixed version text and the CORS header. */
  function GetVersion(): (r: Response)
    ensures r.status == 200 && r.cors
    ensures r.body == Text(VersionText)
  {
    Response(200, Text(VersionText), true)
  }

  /** `filename.starts_with("api/")` */
  predicate HasApiPrefix(filename: string) {
    |filename| >= 4 && filename[..4] == "api/"
  }

  /** The path read for a request: the file under the packaged build when
      that directory exists, else under the UI source tree. */
  function ResolvePath(filename: string, primaryExists: bool): (path: string)
    ensures |path| >= |filename|
    ensures path[|path| - |filename|..] == filename
    ensures path[..|path| - |filename|] == if primaryExists then PrimaryRoot else SecondaryRoot
  {
    if primaryExists then PrimaryRoot + filename else SecondaryRoot + filename
  }

  /** The two roots never give the same path for one filename, so a file
      under one root is never found through the other. */
  lemma ResolvedPathsDiffer(filename: string)
    ensures ResolvePath(filename, true) != ResolvePath(filename, false)
  {
    assert |ResolvePath(filename, true)| != |ResolvePath(filename, false)|;
  }

  /** `get_file`: 204 without touching the filesystem for `api/...`, else the
      bytes of the resolved path with 200, or 404 when it cannot be read.
      None of these responses carries the CORS header. */
  function GetFile(filename: string, primaryExists: bool, files: map<string, seq<byte>>): (r: Response)
    ensures !r.cors
    ensures HasApiPrefix(filename) ==> r.status == 204 && r.body == Empty
    ensures !HasApiPrefix(filename) ==>
      (r.status == 200 <==> ResolvePath(filename, primaryExists) in files)
    ensures !HasApiPrefix(filename) && r.status == 200 ==>
      r.body == Bytes(files[ResolvePath(filename, primaryExists)])
    ensures !HasApiPrefix(filename) && r.status != 200 ==>
      r.status == 404 && r.body == Text(FileNotFound)
  {
    if HasApiPrefix(filename) then
      Response(204, Empty, false)
    else
      var path := ResolvePath(filename, primaryExists);
      if path in files then Response(200, Bytes(files[path]), false)
      else Response(404, Text(FileNotFound), false)
  }

  /** An `api/...` request does not depend on the filesystem at all: neither
      on the root check nor on any file. */
  lemma ApiPrefixIgnoresFilesystem(filename: string, p1: bool, f1: map<string, seq<byte>>,
                                   p2: bool, f2: map<string, seq<byte>>)
    requires HasApiPrefix(filename)
    ensures GetFile(filename, p1, f1) == GetFile(filename, p2, f2)
    ensures GetFile(filename, p1, f1) == Response(204, Empty, false)
  {
  }

  /** Any other request depends only on the root check and on the one path
      it resolves to. */
  lemma OnlyResolvedPathMatters(filename: string, primaryExists: bool,
                                f1: map<string, seq<byte>>, f2: map<string, seq<byte>>)
    requires !HasApiPrefix(filename)
    requires var path := ResolvePath(filename, primaryExists);
      (path in f1 <==> path in f2) && (path in f1 ==> f1[path] == f2[path])
    ensures GetFile(filename, primaryExists, f1) == GetFile(filename, primaryExists, f2)
  {
  }

  /** Whatever the other root holds for the same filename is ignored: adding
      or replacing it there changes nothing, and a file missing from the chosen
      root is a 404 even when the other root has it. Paths are compared as
      text, so this says nothing about a filename whose `..` segments lead
      the operating system into the other root. */
  lemma OtherRootIgnored(filename: string, primaryExists: bool,
                         files: map<string, seq<byte>>, contents: seq<byte>)
    requires !HasApiPrefix(filename)
    ensures var other := ResolvePath(filename, !primaryExists);
      GetFile(filename, primaryExists, files[other := contents]) == GetFile(filename, primaryExists, files)
    ensures ResolvePath(filename, primaryExists) !in files ==>
      GetFile(filename, primaryExists, files[ResolvePath(filename, !primaryExists) := contents]).status == 404
  {
    ResolvedPathsDiffer(filename);
    var other := ResolvePath(filename, !primaryExists);
    OnlyResolvedPathMatters(filename, primaryExists, files[other := contents], files);
  }

  /** Root fallback on a concrete request: `index.html` is served from the
      packaged build when it exists and from the UI source tree otherwise. */
  lemma IndexFromChosenRoot(files: map<string, seq<byte>>)
    ensures "../yukari/build/yukari-ui/index.html" in files ==>
      GetFile("index.html", true, files) == Response(200, Bytes(files["../yukari/build/yukari-ui/index.html"]), false)
    ensures "../yukari-ui/index.html" in files ==>
      GetFile("index.html", false, files) == Response(200, Bytes(files["../yukari-ui/index.html"]), false)
  {
    assert !HasApiPrefix("index.html") by { assert "index.html"[..4][0] == 'i'; }
    assert ResolvePath("index.html", true) == "../yukari/build/yukari-ui/index.html";
    assert ResolvePath("index.html", false) == "../yukari-ui/index.html";
  }
}
