/**
 * The source-map uploader script: its environment defaults, the mapping
 * from a `.next/...js.map` path to the minified script's URL, the
 * `multipart/form-data` body (section 4 of RFC 7578, with the delimiter
 * lines of section 5.1.1 of RFC 2046), the request it sends, and how a
 * response decides the outcome. The file system, the glob, the clock that
 * picks the boundary and the network are inputs.
 */
module UploadSourceMaps {
  import opened Wrappers
  import opened JsBuiltins

  /** The environment variables the script reads. */
  datatype ProcessEnv = ProcessEnv(
    serverToken: Option<string>,   // ROLLBAR_SERVER_TOKEN
    rollbarEnv: Option<string>,    // NEXT_PUBLIC_ROLLBAR_ENV
    sourceVersion: Option<string>, // SOURCE_VERSION
    vercelUrl: Option<string>,     // VERCEL_URL
    baseUrl: Option<string>)       // BASE_URL

  const LocalBase := "http://localhost:3000"
  const CRLF := "\r\n"

  /** `ROLLBAR_ENV`: the configured environment, or "development". */
  function RollbarEnv(env: ProcessEnv): (r: string)
    ensures Truthy(env.rollbarEnv) ==> r == env.rollbarEnv.value
    ensures !Truthy(env.rollbarEnv) ==> r == "development"
  {
    Or(env.rollbarEnv, Some("development")).value
  }

  /** `CODE_VERSION`: the configured source version, or "latest". */
  function CodeVersion(env: ProcessEnv): (r: string)
    ensures Truthy(env.sourceVersion) ==> r == env.sourceVersion.value
    ensures !Truthy(env.sourceVersion) ==> r == "latest"
  {
    Or(env.sourceVersion, Some("latest")).value
  }

  /** `BASE_URL`: https on the Vercel host, else the configured base, else the local server. */
  function BaseUrl(env: ProcessEnv): (r: string)
    ensures Truthy(env.vercelUrl) ==> r == "https://" + env.vercelUrl.value
    ensures !Truthy(env.vercelUrl) && Truthy(env.baseUrl) ==> r == env.baseUrl.value
    ensures !Truthy(env.vercelUrl) && !Truthy(env.baseUrl) ==> r == LocalBase
    ensures r != ""
  {
    if Truthy(env.vercelUrl) then "https://" + env.vercelUrl.value
    else Or(env.baseUrl, Some(LocalBase)).value
  }

  // ---------------------------------------------------------------------
  // From a map file to the URL of its script

  /** `mapFile.replace('.next/', '_next/').replace('.map', '')`. */
  function RelativePath(mapFile: string): string {
    ReplaceFirst(ReplaceFirst(mapFile, ".next/", "_next/"), ".map", "")
  }

  /**
   * For a path `.next/m.map` in which `.map` occurs only at the end, the
   * relative path is `_next/m`: the directory prefix is renamed and the
   * extension dropped.
   */
  lemma RelativePathOfMapFile(m: string)
    requires forall k :: 0 <= k < |m| ==> !OccursAt(m + ".map", ".map", k)
    ensures RelativePath(".next/" + m + ".map") == "_next/" + m
  {
    PrefixRenamed(m);
    ExtensionDropped(m);
  }

  /** The leading `.next/` is the first occurrence of the pattern, so it is the one renamed. */
  lemma PrefixRenamed(m: string)
    ensures ReplaceFirst(".next/" + m + ".map", ".next/", "_next/") == "_next/" + m + ".map"
  {
  }

  /** When `.map` occurs in `m.map` only at the end, that is the occurrence removed. */
  lemma ExtensionDropped(m: string)
    requires forall k :: 0 <= k < |m| ==> !OccursAt(m + ".map", ".map", k)
    ensures ReplaceFirst("_next/" + m + ".map", ".map", "") == "_next/" + m
  {
    var g := "_next/" + m + ".map";
    var last := |g| - 4;
    assert OccursAt(g, ".map", last) by {
      assert g[last..last + 4] == ".map";
    }
    forall k | 0 <= k < last ensures !OccursAt(g, ".map", k) {
      if k < 6 {
        assert g[k] != '.';
      } else {
        assert g[k..k + 4] == (m + ".map")[k - 6..k - 2];
        assert !OccursAt(m + ".map", ".map", k - 6);
      }
    }
    assert IndexOf(g, ".map") == Some(last);
    assert g[..last] == "_next/" + m;
  }

  /** `${BASE_URL}${relativePath}`, as the script writes it: nothing separates the two. */
  function MinifiedUrlAsWritten(base: string, mapFile: string): string {
    base + RelativePath(mapFile)
  }

  /** The URL the script intends: the base, a `/`, then the relative path. */
  function MinifiedUrl(base: string, mapFile: string): string {
    base + "/" + RelativePath(mapFile)
  }

  /** The intended URL of `.next/m.map` is `base/_next/m`. */
  lemma MinifiedUrlOfMapFile(base: string, m: string)
    requires forall k :: 0 <= k < |m| ==> !OccursAt(m + ".map", ".map", k)
    ensures MinifiedUrl(base, ".next/" + m + ".map") == base + "/_next/" + m
  {
    RelativePathOfMapFile(m);
  }

  /**
   * As written, the URL has `_` right after the base where a `/` belongs, so
   * it never equals the intended one.
   */
  lemma MinifiedUrlMissesSlash(base: string, m: string)
    requires forall k :: 0 <= k < |m| ==> !OccursAt(m + ".map", ".map", k)
    ensures MinifiedUrlAsWritten(base, ".next/" + m + ".map") == base + "_next/" + m
    ensures MinifiedUrlAsWritten(base, ".next/" + m + ".map") != MinifiedUrl(base, ".next/" + m + ".map")
  {
    var f := ".next/" + m + ".map";
    RelativePathOfMapFile(m);
    assert MinifiedUrl(base, f) == base + "/" + RelativePath(f);
    var w := base + ("_next/" + m);
    var u := base + ("/" + ("_next/" + m));
    assert w[|base|] == '_';
    assert u[|base|] == '/';
  }

  /** With the default base, `.next/a.js.map` is sent as `http://localhost:3000_next/a.js`. */
  lemma LocalMinifiedUrlAsWritten()
    ensures MinifiedUrlAsWritten(LocalBase, ".next/a.js.map") == LocalBase + "_next/a.js"
  {
    var m := "a.js";
    forall k | 0 <= k < |m| ensures !OccursAt(m + ".map", ".map", k) {
      assert (m + ".map")[k] != '.' || (m + ".map")[k + 1] != 'm';
    }
    assert ".next/" + m + ".map" == ".next/a.js.map";
    MinifiedUrlMissesSlash(LocalBase, m);
  }

  // ---------------------------------------------------------------------
  // path.basename

  /** The path without its trailing slashes. */
  function StripTrailingSlashes(p: string): (q: string)
    ensures |q| <= |p| && q == p[..|q|]
    ensures q == [] || q[|q| - 1] != '/'
    ensures forall i :: |q| <= i < |p| ==> p[i] == '/'
  {
    if p != [] && p[|p| - 1] == '/' then StripTrailingSlashes(p[..|p| - 1]) else p
  }

  /** What follows the last `/` of `p` (all of `p` when it has none). */
  function AfterLastSlash(p: string): (r: string)
    ensures |r| <= |p| && r == p[|p| - |r|..]
    ensures forall i :: 0 <= i < |r| ==> r[i] != '/'
    ensures |r| < |p| ==> p[|p| - |r| - 1] == '/'
  {
    if p == [] || p[|p| - 1] == '/' then ""
    else AfterLastSlash(p[..|p| - 1]) + [p[|p| - 1]]
  }

  /** `path.basename(p)`: the last segment, trailing slashes ignored. */
  function Basename(p: string): string {
    AfterLastSlash(StripTrailingSlashes(p))
  }

  /** The base name of `dir/name`, for a non-empty `name` without `/`, is `name`. */
  lemma {:induction false} BasenameOfFile(dir: string, name: string)
    requires name != [] && forall i :: 0 <= i < |name| ==> name[i] != '/'
    ensures Basename(dir + "/" + name) == name
  {
    var p := dir + "/" + name;
    assert StripTrailingSlashes(p) == p;
    AfterLastSlashOfFile(dir + "/", name);
  }

  /** `AfterLastSlash` of `d + name`, where `d` ends in `/` and `name` has none, is `name`. */
  lemma {:induction false} AfterLastSlashOfFile(d: string, name: string)
    requires d != [] && d[|d| - 1] == '/'
    requires forall i :: 0 <= i < |name| ==> name[i] != '/'
    ensures AfterLastSlash(d + name) == name
  {
    if name == [] {
      assert d + name == d;
    } else {
      var init := name[..|name| - 1];
      assert (d + name)[..|d + name| - 1] == d + init;
      AfterLastSlashOfFile(d, init);
      assert init + [name[|name| - 1]] == name;
    }
  }

  // ---------------------------------------------------------------------
  // The multipart body

  /** The Content-Disposition line of a plain field. */
  function Disposition(name: string): string {
    "Content-Disposition: form-data; name=\"" + name + "\""
  }

  /** The lines of one field part: delimiter, disposition, blank line, value. */
  function FieldLines(boundary: string, name: string, value: string): seq<string> {
    ["--" + boundary, Disposition(name), "", value]
  }

  /** The lines of the file part, which also names the file and its content type. */
  function FileLines(boundary: string, fileName: string, content: string): seq<string> {
    ["--" + boundary,
     "Content-Disposition: form-data; name=\"source_map\"; filename=\"" + fileName + "\"",
     "Content-Type: application/json",
     "",
     content]
  }

  /** The `formData` array: the three fields, the file, the close delimiter and an empty last line. */
  function FormLines(boundary: string, token: string, version: string, minifiedUrl: string,
                     fileName: string, content: string): seq<string>
  {
    FieldLines(boundary, "access_token", token)
    + FieldLines(boundary, "version", version)
    + FieldLines(boundary, "minified_url", minifiedUrl)
    + FileLines(boundary, fileName, content)
    + ["--" + boundary + "--", ""]
  }

  /** `formData.join('\r\n')`. */
  function FormData(boundary: string, token: string, version: string, minifiedUrl: string,
                    fileName: string, content: string): string
  {
    Join(FormLines(boundary, token, version, minifiedUrl, fileName, content), CRLF)
  }

  /** One field part as it appears in the body, with every line ended by CRLF. */
  function FieldPart(boundary: string, name: string, value: string): string {
    "--" + boundary + CRLF + Disposition(name) + CRLF + CRLF + value + CRLF
  }

  /** The file part as it appears in the body. */
  function FilePart(boundary: string, fileName: string, content: string): string {
    "--" + boundary + CRLF
    + "Content-Disposition: form-data; name=\"source_map\"; filename=\"" + fileName + "\"" + CRLF
    + "Content-Type: application/json" + CRLF
    + CRLF
    + content + CRLF
  }

  /**
   * The body is the parts `access_token`, `version`, `minified_url` and
   * `source_map` in that order, each opened by `--boundary`, followed by the
   * close delimiter `--boundary--` and exactly one CRLF; the values and the
   * map content appear verbatim.
   */
  lemma FormDataLayout(boundary: string, token: string, version: string, minifiedUrl: string,
                       fileName: string, content: string)
    ensures FormData(boundary, token, version, minifiedUrl, fileName, content)
         == FieldPart(boundary, "access_token", token)
          + FieldPart(boundary, "version", version)
          + FieldPart(boundary, "minified_url", minifiedUrl)
          + FilePart(boundary, fileName, content)
          + "--" + boundary + "--" + CRLF
  {
    var parts := FieldLines(boundary, "access_token", token)
               + FieldLines(boundary, "version", version)
               + FieldLines(boundary, "minified_url", minifiedUrl)
               + FileLines(boundary, fileName, content);
    var close := ["--" + boundary + "--", ""];
    var fields := FieldPart(boundary, "access_token", token)
                + FieldPart(boundary, "version", version)
                + FieldPart(boundary, "minified_url", minifiedUrl)
                + FilePart(boundary, fileName, content);
    calc {
      FormData(boundary, token, version, minifiedUrl, fileName, content);
      { assert FormLines(boundary, token, version, minifiedUrl, fileName, content) == parts + close; }
      Join(parts + close, CRLF);
      { JoinSplit(parts, close, CRLF); }
      Terminated(parts, CRLF) + Join(close, CRLF);
      { PartsTerminated(boundary, token, version, minifiedUrl, fileName, content);
        CloseDelimiter(boundary); }
      fields + ("--" + boundary + "--" + CRLF);
    }
  }

  /** The last two lines give the close delimiter followed by one CRLF. */
  lemma CloseDelimiter(boundary: string)
    ensures Join(["--" + boundary + "--", ""], CRLF) == "--" + boundary + "--" + CRLF
  {
  }

  /** The four parts' lines, each ended by CRLF, are the four parts in order. */
  lemma PartsTerminated(boundary: string, token: string, version: string, minifiedUrl: string,
                        fileName: string, content: string)
    ensures Terminated(FieldLines(boundary, "access_token", token)
                       + FieldLines(boundary, "version", version)
                       + FieldLines(boundary, "minified_url", minifiedUrl)
                       + FileLines(boundary, fileName, content), CRLF)
         == FieldPart(boundary, "access_token", token)
          + FieldPart(boundary, "version", version)
          + FieldPart(boundary, "minified_url", minifiedUrl)
          + FilePart(boundary, fileName, content)
  {
    var a := FieldLines(boundary, "access_token", token);
    var v := FieldLines(boundary, "version", version);
    var u := FieldLines(boundary, "minified_url", minifiedUrl);
    var f := FileLines(boundary, fileName, content);
    TerminatedAppend(a + v + u, f, CRLF);
    TerminatedAppend(a + v, u, CRLF);
    TerminatedAppend(a, v, CRLF);
    FieldTerminated(boundary, "access_token", token);
    FieldTerminated(boundary, "version", version);
    FieldTerminated(boundary, "minified_url", minifiedUrl);
    FileTerminated(boundary, fileName, content);
  }

  /** A field's lines, each ended by CRLF, are its part. */
  lemma FieldTerminated(boundary: string, name: string, value: string)
    ensures Terminated(FieldLines(boundary, name, value), CRLF) == FieldPart(boundary, name, value)
  {
    TerminatedFour("--" + boundary, Disposition(name), "", value, CRLF);
  }

  /** The file's lines, each ended by CRLF, are its part. */
  lemma FileTerminated(boundary: string, fileName: string, content: string)
    ensures Terminated(FileLines(boundary, fileName, content), CRLF) == FilePart(boundary, fileName, content)
  {
    var ls := FileLines(boundary, fileName, content);
    calc {
      Terminated(ls, CRLF);
    == { assert ls[1..] == ls[1..5]; }
      ls[0] + CRLF + Terminated([ls[1], ls[2], ls[3], ls[4]], CRLF);
    == { TerminatedFour(ls[1], ls[2], ls[3], ls[4], CRLF); }
      ls[0] + CRLF + (ls[1] + CRLF + ls[2] + CRLF + ls[3] + CRLF + ls[4] + CRLF);
    }
  }

  // ---------------------------------------------------------------------
  // The request and its outcome

  /** `Buffer.byteLength(s)`: the length of the UTF-8 encoding of `s`. */
  function Utf8Length(s: string): (n: nat)
    ensures |s| <= n <= 4 * |s|
  {
    if s == [] then 0
    else
      var c := s[0] as int;
      (if c < 0x80 then 1 else if c < 0x800 then 2 else if c < 0x1_0000 then 3 else 4)
      + Utf8Length(s[1..])
  }

  /** Text made only of ASCII characters takes one byte per character. */
  lemma {:induction false} Utf8LengthAscii(s: string)
    requires forall i :: 0 <= i < |s| ==> s[i] as int < 0x80
    ensures Utf8Length(s) == |s|
  {
    if s != [] {
      Utf8LengthAscii(s[1..]);
    }
  }

  /** The `https.request` options, with the body written to it. */
  datatype Request = Request(
    hostname: string,
    port: nat,
    path: string,
    httpMethod: string,
    contentType: string,
    contentLength: nat,
    body: string)

  /** What the network gives back: a transport error, or a status and the body in chunks. */
  datatype Reply = NetworkError(message: string) | Response(statusCode: int, chunks: seq<string>)

  /** How one upload ends. */
  datatype UploadOutcome =
    | Skipped                             // no server token: returns undefined
    | Uploaded(data: string)              // status 200: resolves with the body
    | Rejected(statusCode: int, data: string) // other status: rejects
    | Errored(message: string)            // request error: rejects with it

  /** The chunks of a response, concatenated in order. */
  function Concat(chunks: seq<string>): string {
    if chunks == [] then "" else chunks[0] + Concat(chunks[1..])
  }

  /** Concatenating chunks adds up over appending. */
  lemma {:induction false} ConcatAppend(xs: seq<string>, ys: seq<string>)
    ensures Concat(xs + ys) == Concat(xs) + Concat(ys)
  {
    if xs == [] {
      assert xs + ys == ys;
    } else {
      assert (xs + ys)[1..] == xs[1..] + ys;
      ConcatAppend(xs[1..], ys);
    }
  }

  /** The response handler's `data += chunk` over every `'data'` event, in order. */
  method ReadBody(chunks: seq<string>) returns (data: string)
    ensures data == Concat(chunks)
  {
    data := "";
    var i := 0;
    while i < |chunks|
      invariant 0 <= i <= |chunks|
      invariant data == Concat(chunks[..i])
    {
      ConcatAppend(chunks[..i], [chunks[i]]);
      assert chunks[..i + 1] == chunks[..i] + [chunks[i]];
      data := data + chunks[i];
      i := i + 1;
    }
    assert chunks[..i] == chunks;
  }

  /** The request `uploadSourceMap` sends for a map file. */
  function UploadRequest(token: string, version: string, mapFilePath: string, minifiedUrl: string,
                         content: string, boundary: string): (r: Request)
    ensures r.hostname == "api.rollbar.com" && r.port == 443
    ensures r.path == "/api/1/sourcemap" && r.httpMethod == "POST"
    ensures r.contentType == "multipart/form-data; boundary=" + boundary
    ensures r.contentLength == Utf8Length(r.body)
    ensures r.body == FormData(boundary, token, version, minifiedUrl, Basename(mapFilePath), content)
  {
    var body := FormData(boundary, token, version, minifiedUrl, Basename(mapFilePath), content);
    Request("api.rollbar.com", 443, "/api/1/sourcemap", "POST",
            "multipart/form-data; boundary=" + boundary, Utf8Length(body), body)
  }

  /**
   * `uploadSourceMap(mapFilePath, minifiedUrl)`: without a server token nothing
   * is sent; otherwise the request is made, the response body accumulated
   * chunk by chunk, and only status 200 counts as success.
   */
  method UploadSourceMap(env: ProcessEnv, mapFilePath: string, minifiedUrl: string,
                         content: string, boundary: string, reply: Reply)
    returns (request: Option<Request>, outcome: UploadOutcome)
    ensures !Truthy(env.serverToken) ==> request == None && outcome == Skipped
    ensures Truthy(env.serverToken) ==>
              request == Some(UploadRequest(env.serverToken.value, CodeVersion(env), mapFilePath,
                                            minifiedUrl, content, boundary))
    ensures Truthy(env.serverToken) && reply.NetworkError? ==> outcome == Errored(reply.message)
    ensures Truthy(env.serverToken) && reply.Response? && reply.statusCode == 200 ==>
              outcome == Uploaded(Concat(reply.chunks))
    ensures Truthy(env.serverToken) && reply.Response? && reply.statusCode != 200 ==>
              outcome == Rejected(reply.statusCode, Concat(reply.chunks))
    ensures outcome.Uploaded? <==> Truthy(env.serverToken) && reply.Response? && reply.statusCode == 200
    ensures outcome.Skipped? <==> !Truthy(env.serverToken)
  {
    if !Truthy(env.serverToken) {
      return None, Skipped;
    }
    request := Some(UploadRequest(env.serverToken.value, CodeVersion(env), mapFilePath,
                                  minifiedUrl, content, boundary));
    match reply
    case NetworkError(message) =>
      outcome := Errored(message);
    case Response(statusCode, chunks) =>
      var data := ReadBody(chunks);
      if statusCode == 200 {
        outcome := Uploaded(data);
      } else {
        outcome := Rejected(statusCode, data);
      }
  }

  /** One planned upload: the map file and the URL it is registered under. */
  datatype Job = Job(mapFile: string, minifiedUrl: string)

  /**
   * `main()`'s loop over the found map files: without a server token nothing
   * is planned; otherwise every file, in order, is paired with the URL the
   * script builds for it, `${BASE_URL}${relativePath}` (see `MinifiedUrlMissesSlash`
   * for how that differs from the intended `MinifiedUrl`).
   */
  method PlanUploads(env: ProcessEnv, mapFiles: seq<string>) returns (jobs: seq<Job>)
    ensures !Truthy(env.serverToken) ==> jobs == []
    ensures Truthy(env.serverToken) ==> |jobs| == |mapFiles|
    ensures Truthy(env.serverToken) ==>
              forall i :: 0 <= i < |jobs| ==> jobs[i] == Job(mapFiles[i], MinifiedUrlAsWritten(BaseUrl(env), mapFiles[i]))
  {
    jobs := [];
    if !Truthy(env.serverToken) || |mapFiles| == 0 {
      return;
    }
    var base := BaseUrl(env);
    for i := 0 to |mapFiles|
      invariant |jobs| == i
      invariant forall j :: 0 <= j < i ==> jobs[j] == Job(mapFiles[j], MinifiedUrlAsWritten(base, mapFiles[j]))
    {
      jobs := jobs + [Job(mapFiles[i], MinifiedUrlAsWritten(base, mapFiles[i]))];
    }
  }
}
