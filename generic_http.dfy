/**
 * Package `actors` of the generic provider, file http.go: the HttpRequest
 * actor, which builds an HTTP request from a blueprint action (body by body
 * type, then user headers), sends it and records the response.
 *
 * The transport, file system, MIME sniffing, JSON decoding and the store's
 * interpolation are oracles in `HttpEnv`. Header names are compared as given:
 * the canonicalisation of http.Header keys is abstracted to equality, and a
 * header holds one value per key, as `Set` leaves it.
 */
module GenericHttp {
  import opened Wrappers
  import opened GoTypes
  import opened Base

  const BodyTypeNone: string := "none"
  const BodyTypeFormData: string := "form-data"
  const BodyTypeXWWWFormUrlencoded: string := "x-www-form-urlencoded"
  const BodyTypeRaw: string := "raw"
  const BodyTypeBinary: string := "binary"

  const PartTypeText: string := "text"
  const PartTypeFile: string := "file"

  /** httpBodyMultiPart */
  datatype MultiPart = MultiPart(name: string, value: string, ptype: string, contentType: Option<string>)

  /** httpBodyUrlencoded */
  datatype FormValue = FormValue(name: string, value: string)

  /** httpHeader */
  datatype HeaderParam = HeaderParam(key: string, value: string)

  /** httpRequestParameters, as json.Unmarshal fills it. */
  datatype RequestParameters = RequestParameters(httpMethod: string, url: string, headers: seq<HeaderParam>, bodyType: string)

  /** An http.Header or textproto.MIMEHeader with one value per key. */
  type Header = map<string, string>

  /** Header.Get: the value of `key`, or "" when it is not set. */
  function Get(h: Header, key: string): string
  {
    if key in h then h[key] else ""
  }

  /** A part written by the multipart writer: a file with its field and file name, or a text part with its own header. */
  datatype Part = FilePart(field: string, fileName: string, content: seq<byte>) | TextPart(header: Header, value: string)

  /** The body a request carries; url.Values keeps every value added under a key, in order. */
  datatype Body =
    | NoBody
    | Multipart(parts: seq<Part>)
    | Urlencoded(values: map<string, seq<string>>)
    | Raw(text: string)
    | Binary(content: seq<byte>)

  datatype Request = Request(httpMethod: string, url: string, body: Body, header: Header)

  /** An opened file: the name Stat reports and everything ReadAll returned. */
  datatype File = File(name: string, content: seq<byte>)

  /**
   * What the transport returned: status line and code, the result of writing
   * the response headers out as text, the Content-Length, and the result of
   * reading the body (through gzip when the response says so).
   */
  datatype HttpResponse = HttpResponse(
    status: string,
    statusCode: int,
    headerText: Result<string, Error>,
    contentLength: int,
    body: Result<string, Error>)

  /** httpRequestOutput */
  datatype HttpRequestOutput = HttpRequestOutput(status: string, statusCode: int, headers: string, body: string)

  /** The foreign code HttpRequest calls. */
  datatype HttpEnv = HttpEnv(
    decodeRequest: seq<byte> -> Result<RequestParameters, Error>,
    decodeMultipart: seq<byte> -> Result<seq<MultiPart>, Error>,
    decodeUrlencoded: seq<byte> -> Result<seq<FormValue>, Error>,
    decodeRaw: seq<byte> -> Result<string, Error>,
    decodeBinary: seq<byte> -> Result<string, Error>,
    readFile: string -> Result<File, Error>,
    detectContentType: seq<byte> -> string,
    newRequest: (string, string) -> Option<Error>,
    interpolate: string -> Result<string, Error>,
    send: Request -> Result<HttpResponse, Error>)

  /** The generic provider's action context, reduced to what HttpRequest reads. */
  class ActionContext {
    var rehearsal: bool
    var action: Action

    constructor (rehearsal: bool, action: Action)
      ensures this.rehearsal == rehearsal && this.action == action
    {
      this.rehearsal := rehearsal;
      this.action := action;
    }
  }

  // ---------------------------------------------------------------------
  // Text parts: escaping the field name

  /** The one-pass replacer of text-part names: `\` becomes `\\` and `"` becomes `\"`. */
  function EscapeQuotes(s: string): (e: string)
    ensures |e| >= |s|
    ensures '\\' !in s && '"' !in s ==> e == s
  {
    if s == [] then []
    else if s[0] == '\\' then "\\\\" + EscapeQuotes(s[1..])
    else if s[0] == '"' then "\\\"" + EscapeQuotes(s[1..])
    else [s[0]] + EscapeQuotes(s[1..])
  }

  /**
   * Reads the inside of a quoted string up to its closing quote, taking a
   * backslash as escaping the next character (the quoted-string of the
   * Content-Disposition `name` parameter, section 4.2 of RFC 7578); returns
   * the text and what follows the quote.
   */
  function QuotedPrefix(s: string): Option<(string, string)>
  {
    if s == [] then None
    else if s[0] == '"' then Some(([], s[1..]))
    else if s[0] == '\\' then
      if |s| < 2 then None
      else match QuotedPrefix(s[2..])
        case None => None
        case Some(r) => Some(([s[1]] + r.0, r.1))
    else match QuotedPrefix(s[1..])
      case None => None
      case Some(r) => Some(([s[0]] + r.0, r.1))
  }

  /** An escaped name, closed by a quote, reads back as exactly that name, whatever follows. */
  lemma {:induction false} EscapeQuotesRoundTrip(name: string, rest: string)
    ensures QuotedPrefix(EscapeQuotes(name) + "\"" + rest) == Some((name, rest))
  {
    if name != [] {
      EscapeQuotesRoundTrip(name[1..], rest);
      var tail := EscapeQuotes(name[1..]) + "\"" + rest;
      if name[0] == '\\' {
        assert EscapeQuotes(name) + "\"" + rest == "\\\\" + tail;
        assert ("\\\\" + tail)[2..] == tail;
      } else if name[0] == '"' {
        assert EscapeQuotes(name) + "\"" + rest == "\\\"" + tail;
        assert ("\\\"" + tail)[2..] == tail;
      } else {
        assert EscapeQuotes(name) + "\"" + rest == [name[0]] + tail;
        assert ([name[0]] + tail)[1..] == tail;
      }
      assert [name[0]] + name[1..] == name;
    }
  }

  /** The Content-Disposition of a text part. */
  function ContentDisposition(name: string): string
  {
    "form-data; name=\"" + EscapeQuotes(name) + "\""
  }

  /** The field name can be read back from a text part's Content-Disposition. */
  lemma ContentDispositionNames(name: string)
    ensures var d := ContentDisposition(name);
            |d| >= 17 && d[..17] == "form-data; name=\"" && QuotedPrefix(d[17..]) == Some((name, ""))
  {
    var d := ContentDisposition(name);
    assert d[17..] == EscapeQuotes(name) + "\"" + "";
    EscapeQuotesRoundTrip(name, "");
  }

  /** The header of a text part: its escaped name, and the given content type or "text/plain". */
  function TextPartHeader(p: MultiPart): (h: Header)
    ensures h.Keys == {"Content-Disposition", "Content-Type"}
    ensures h["Content-Disposition"] == ContentDisposition(p.name)
    ensures h["Content-Type"] == (if p.contentType.Some? then p.contentType.value else "text/plain")
  {
    map["Content-Disposition" := ContentDisposition(p.name),
        "Content-Type" := if p.contentType.Some? then p.contentType.value else "text/plain"]
  }

  // ---------------------------------------------------------------------
  // form-data: the parts loop

  /** What one body part contributes: a file part, a text part, or nothing for any other type. */
  function PartOf(p: MultiPart, readFile: string -> Result<File, Error>): (r: Result<Option<Part>, Error>)
    ensures r.Failure? <==> p.ptype == PartTypeFile && readFile(p.value).Failure?
    ensures r.Success? ==> (r.value.Some? <==> p.ptype == PartTypeFile || p.ptype == PartTypeText)
    ensures p.ptype == PartTypeFile && readFile(p.value).Failure? ==> r == Failure(readFile(p.value).error)
    ensures p.ptype == PartTypeFile && readFile(p.value).Success? ==>
              var f := readFile(p.value).value;
              r == Success(Some(FilePart(p.name, f.name, f.content)))
    ensures p.ptype == PartTypeText ==> r == Success(Some(TextPart(TextPartHeader(p), p.value)))
  {
    if p.ptype == PartTypeFile then
      match readFile(p.value)
      case Failure(e) => Failure(e)
      case Success(f) => Success(Some(FilePart(p.name, f.name, f.content)))
    else if p.ptype == PartTypeText then Success(Some(TextPart(TextPartHeader(p), p.value)))
    else Success(None)
  }

  /** The parts written for the body, left to right; the first file that cannot be read stops it. */
  function Parts(ps: seq<MultiPart>, readFile: string -> Result<File, Error>): Result<seq<Part>, Error>
  {
    if ps == [] then Success([])
    else
      match Parts(ps[..|ps| - 1], readFile)
      case Failure(e) => Failure(e)
      case Success(written) =>
        match PartOf(ps[|ps| - 1], readFile)
        case Failure(e) => Failure(e)
        case Success(None) => Success(written)
        case Success(Some(part)) => Success(written + [part])
  }

  /** A file part whose file cannot be opened, examined or read. */
  predicate Unreadable(p: MultiPart, readFile: string -> Result<File, Error>)
  {
    p.ptype == PartTypeFile && readFile(p.value).Failure?
  }

  /**
   * Writing the parts fails exactly when some file part cannot be read, and
   * then with the error of the first such part; otherwise the body holds, in
   * order, the part each text or file part contributes.
   */
  lemma {:induction false} PartsCorrect(ps: seq<MultiPart>, readFile: string -> Result<File, Error>)
    ensures Parts(ps, readFile).Success? <==> forall i :: 0 <= i < |ps| ==> !Unreadable(ps[i], readFile)
    ensures Parts(ps, readFile).Failure? ==>
              exists i :: && 0 <= i < |ps| && Unreadable(ps[i], readFile)
                          && (forall k :: 0 <= k < i ==> !Unreadable(ps[k], readFile))
                          && Parts(ps, readFile).error == readFile(ps[i].value).error
    ensures Parts(ps, readFile).Success? ==>
              && |Parts(ps, readFile).value| == |KeptParts(ps)|
              && forall j :: 0 <= j < |KeptParts(ps)| ==>
                   PartOf(KeptParts(ps)[j], readFile) == Success(Some(Parts(ps, readFile).value[j]))
  {
    if ps != [] {
      var n := |ps| - 1;
      PartsCorrect(ps[..n], readFile);
      assert forall i :: 0 <= i < n ==> ps[..n][i] == ps[i];
      if Parts(ps[..n], readFile).Failure? {
        var i :| && 0 <= i < n && Unreadable(ps[..n][i], readFile)
                 && (forall k :: 0 <= k < i ==> !Unreadable(ps[..n][k], readFile))
                 && Parts(ps[..n], readFile).error == readFile(ps[..n][i].value).error;
        assert Unreadable(ps[i], readFile);
      } else if Unreadable(ps[n], readFile) {
        assert Parts(ps, readFile).error == readFile(ps[n].value).error;
      }
    }
  }

  /** The body parts of a type the writer handles, in order. */
  function KeptParts(ps: seq<MultiPart>): seq<MultiPart>
  {
    if ps == [] then []
    else if ps[|ps| - 1].ptype == PartTypeFile || ps[|ps| - 1].ptype == PartTypeText then
      KeptParts(ps[..|ps| - 1]) + [ps[|ps| - 1]]
    else KeptParts(ps[..|ps| - 1])
  }

  lemma {:induction false} PartsFailurePersists(ps: seq<MultiPart>, readFile: string -> Result<File, Error>, j: nat)
    requires j <= |ps| && Parts(ps[..j], readFile).Failure?
    ensures Parts(ps, readFile) == Parts(ps[..j], readFile)
    decreases |ps| - j
  {
    if j < |ps| {
      assert ps[..j + 1][..j] == ps[..j];
      PartsFailurePersists(ps, readFile, j + 1);
    } else {
      assert ps[..j] == ps;
    }
  }

  /** The loop over the body parts, writing each into the multipart body. */
  method WriteParts(ps: seq<MultiPart>, readFile: string -> Result<File, Error>) returns (r: Result<seq<Part>, Error>)
    ensures r == Parts(ps, readFile)
  {
    var written: seq<Part> := [];
    var i := 0;
    while i < |ps|
      invariant 0 <= i <= |ps|
      invariant Parts(ps[..i], readFile) == Success(written)
    {
      assert ps[..i + 1][..i] == ps[..i];
      var part := ps[i];
      if part.ptype == PartTypeFile {
        var file := readFile(part.value);
        if file.Failure? {
          PartsFailurePersists(ps, readFile, i + 1);
          return Failure(file.error);
        }
        written := written + [FilePart(part.name, file.value.name, file.value.content)];
      } else if part.ptype == PartTypeText {
        written := written + [TextPart(TextPartHeader(part), part.value)];
      }
      i := i + 1;
    }
    assert ps[..i] == ps;
    r := Success(written);
  }

  // ---------------------------------------------------------------------
  // x-www-form-urlencoded: the url.Values loop

  /** url.Values after Add(name, value) for each pair in order. */
  function AddAll(kvs: seq<FormValue>): map<string, seq<string>>
  {
    if kvs == [] then map[]
    else
      var m := AddAll(kvs[..|kvs| - 1]);
      var kv := kvs[|kvs| - 1];
      m[kv.name := (if kv.name in m then m[kv.name] else []) + [kv.value]]
  }

  /** The values given for `name`, in the order given. */
  function ValuesFor(kvs: seq<FormValue>, name: string): seq<string>
  {
    if kvs == [] then []
    else if kvs[|kvs| - 1].name == name then ValuesFor(kvs[..|kvs| - 1], name) + [kvs[|kvs| - 1].value]
    else ValuesFor(kvs[..|kvs| - 1], name)
  }

  /** Every name given appears once in the values, holding all its values in the order given. */
  lemma {:induction false} AddAllCorrect(kvs: seq<FormValue>)
    ensures forall name :: name in AddAll(kvs) <==> ValuesFor(kvs, name) != []
    ensures forall name :: name in AddAll(kvs) ==> AddAll(kvs)[name] == ValuesFor(kvs, name)
  {
    if kvs != [] {
      AddAllCorrect(kvs[..|kvs| - 1]);
    }
  }

  /** The loop that adds each name/value pair to url.Values. */
  method EncodeValues(kvs: seq<FormValue>) returns (values: map<string, seq<string>>)
    ensures values == AddAll(kvs)
  {
    values := map[];
    for i := 0 to |kvs|
      invariant values == AddAll(kvs[..i])
    {
      assert kvs[..i + 1][..i] == kvs[..i];
      var kv := kvs[i];
      values := values[kv.name := (if kv.name in values then values[kv.name] else []) + [kv.value]];
    }
    assert kvs[..|kvs|] == kvs;
  }

  // ---------------------------------------------------------------------
  // User headers: the merge loop

  /** The headers after the user headers, the keys whose values were interpolated, and the error that stopped it. */
  datatype Merged = Merged(header: Header, interpolated: seq<string>, err: Option<Error>)

  /**
   * The user headers applied left to right: a key that already has a
   * non-empty value is skipped; otherwise the value is interpolated and set;
   * an interpolation error stops the loop.
   */
  function Merge(h: Header, hs: seq<HeaderParam>, interpolate: string -> Result<string, Error>): Merged
  {
    if hs == [] then Merged(h, [], None)
    else
      var m := Merge(h, hs[..|hs| - 1], interpolate);
      var hh := hs[|hs| - 1];
      if m.err.Some? || Get(m.header, hh.key) != "" then m
      else
        match interpolate(hh.value)
        case Failure(e) => Merged(m.header, m.interpolated + [hh.key], Some(e))
        case Success(v) => Merged(m.header[hh.key := v], m.interpolated + [hh.key], None)
  }

  /**
   * A header the request already carries is never overwritten and its user
   * value never interpolated; every key set comes from the request or the
   * user headers.
   */
  lemma {:induction false} MergeKeepsSetHeaders(h: Header, hs: seq<HeaderParam>, interpolate: string -> Result<string, Error>)
    ensures forall k :: Get(h, k) != "" ==> Get(Merge(h, hs, interpolate).header, k) == Get(h, k)
    ensures forall k :: Get(h, k) != "" ==> k !in Merge(h, hs, interpolate).interpolated
    ensures forall k :: k in Merge(h, hs, interpolate).header ==> k in h || exists i :: 0 <= i < |hs| && hs[i].key == k
  {
    if hs != [] {
      var n := |hs| - 1;
      MergeKeepsSetHeaders(h, hs[..n], interpolate);
      assert forall i :: 0 <= i < n ==> hs[..n][i] == hs[i];
    }
  }

  /** Merging never removes a header, and a key no user header names keeps its value. */
  lemma {:induction false} MergeTouchesOnlyUserKeys(h: Header, hs: seq<HeaderParam>, interpolate: string -> Result<string, Error>)
    ensures h.Keys <= Merge(h, hs, interpolate).header.Keys
    ensures forall k :: (forall i :: 0 <= i < |hs| ==> hs[i].key != k) ==>
              Get(Merge(h, hs, interpolate).header, k) == Get(h, k)
  {
    if hs != [] {
      var n := |hs| - 1;
      MergeTouchesOnlyUserKeys(h, hs[..n], interpolate);
      assert forall i :: 0 <= i < n ==> hs[..n][i] == hs[i];
    }
  }

  /** A merge that completes leaves every user header key set. */
  lemma {:induction false} MergeSetsUserKeys(h: Header, hs: seq<HeaderParam>, interpolate: string -> Result<string, Error>)
    ensures Merge(h, hs, interpolate).err.None? ==>
              forall i :: 0 <= i < |hs| ==> hs[i].key in Merge(h, hs, interpolate).header
  {
    if hs != [] {
      var n := |hs| - 1;
      MergeSetsUserKeys(h, hs[..n], interpolate);
      assert forall i :: 0 <= i < n ==> hs[..n][i] == hs[i];
    }
  }

  /**
   * In a merge that completes, a user header whose key the request did not
   * already carry and that no other user header names holds its interpolated
   * value.
   */
  lemma {:induction false} MergeSetsUserHeaders(h: Header, hs: seq<HeaderParam>, interpolate: string -> Result<string, Error>, i: nat)
    requires i < |hs| && Get(h, hs[i].key) == ""
    requires forall j :: 0 <= j < |hs| && j != i ==> hs[j].key != hs[i].key
    ensures Merge(h, hs, interpolate).err.None? ==>
              && interpolate(hs[i].value).Success?
              && hs[i].key in Merge(h, hs, interpolate).header
              && Get(Merge(h, hs, interpolate).header, hs[i].key) == interpolate(hs[i].value).value
  {
    var n := |hs| - 1;
    var m := Merge(h, hs[..n], interpolate);
    if i == n {
      MergeTouchesOnlyUserKeys(h, hs[..n], interpolate);
      assert forall j :: 0 <= j < n ==> hs[..n][j].key != hs[n].key;
      assert Get(m.header, hs[n].key) == "";
    } else {
      assert forall j :: 0 <= j < n && j != i ==> hs[..n][j].key != hs[..n][i].key;
      MergeSetsUserHeaders(h, hs[..n], interpolate, i);
    }
  }

  lemma {:induction false} MergeErrorPersists(h: Header, hs: seq<HeaderParam>, interpolate: string -> Result<string, Error>, j: nat)
    requires j <= |hs| && Merge(h, hs[..j], interpolate).err.Some?
    ensures Merge(h, hs, interpolate) == Merge(h, hs[..j], interpolate)
    decreases |hs| - j
  {
    if j < |hs| {
      assert hs[..j + 1][..j] == hs[..j];
      MergeErrorPersists(h, hs, interpolate, j + 1);
    } else {
      assert hs[..j] == hs;
    }
  }

  /** The loop that applies the user headers to the request. */
  method MergeHeaders(h: Header, hs: seq<HeaderParam>, interpolate: string -> Result<string, Error>) returns (m: Merged)
    ensures m == Merge(h, hs, interpolate)
  {
    var header := h;
    var interpolated: seq<string> := [];
    var i := 0;
    while i < |hs|
      invariant 0 <= i <= |hs|
      invariant Merge(h, hs[..i], interpolate) == Merged(header, interpolated, None)
    {
      assert hs[..i + 1][..i] == hs[..i];
      var hh := hs[i];
      if Get(header, hh.key) == "" {
        var value := interpolate(hh.value);
        interpolated := interpolated + [hh.key];
        if value.Failure? {
          MergeErrorPersists(h, hs, interpolate, i + 1);
          return Merged(header, interpolated, Some(value.error));
        }
        header := header[hh.key := value.value];
      }
      i := i + 1;
    }
    assert hs[..i] == hs;
    m := Merged(header, interpolated, None);
  }

  // ---------------------------------------------------------------------
  // The request

  /**
   * The body for a body type and the Content-Type the actor sets for it:
   * multipart/form-data, application/x-www-form-urlencoded, the sniffed type
   * of a binary file, and none for raw, none or an unknown type.
   */
  function RequestBody(bodyType: string, parameters: seq<byte>, env: HttpEnv): (r: Result<(Body, Header), Error>)
    ensures r.Success? && bodyType == BodyTypeFormData ==>
              r.value.0.Multipart? && r.value.1 == map["Content-Type" := "multipart/form-data"]
    ensures r.Success? && bodyType == BodyTypeXWWWFormUrlencoded ==>
              r.value.0.Urlencoded? && r.value.1 == map["Content-Type" := "application/x-www-form-urlencoded"]
    ensures r.Success? && bodyType == BodyTypeBinary ==>
              r.value.0.Binary? && r.value.1 == map["Content-Type" := env.detectContentType(r.value.0.content)]
    ensures r.Success? && bodyType == BodyTypeRaw ==> r.value.0.Raw? && r.value.1 == map[]
    ensures bodyType !in {BodyTypeFormData, BodyTypeXWWWFormUrlencoded, BodyTypeRaw, BodyTypeBinary} ==>
              r == Success((NoBody, map[]))
    ensures bodyType == BodyTypeFormData ==>
              var ps := env.decodeMultipart(parameters);
              && (ps.Failure? ==> r == Failure(ps.error))
              && (ps.Success? && Parts(ps.value, env.readFile).Failure? ==> r == Failure(Parts(ps.value, env.readFile).error))
              && (ps.Success? && Parts(ps.value, env.readFile).Success? ==>
                    r.Success? && r.value.0 == Multipart(Parts(ps.value, env.readFile).value))
    ensures bodyType == BodyTypeXWWWFormUrlencoded ==>
              var kvs := env.decodeUrlencoded(parameters);
              && (kvs.Failure? ==> r == Failure(kvs.error))
              && (kvs.Success? ==> r.Success? && r.value.0 == Urlencoded(AddAll(kvs.value)))
    ensures bodyType == BodyTypeRaw ==>
              var text := env.decodeRaw(parameters);
              && (text.Failure? ==> r == Failure(text.error))
              && (text.Success? ==> r.Success? && r.value.0 == Raw(text.value))
    ensures bodyType == BodyTypeBinary ==>
              var path := env.decodeBinary(parameters);
              && (path.Failure? ==> r == Failure(path.error))
              && (path.Success? && env.readFile(path.value).Failure? ==> r == Failure(env.readFile(path.value).error))
              && (path.Success? && env.readFile(path.value).Success? ==>
                    r.Success? && r.value.0 == Binary(env.readFile(path.value).value.content))
  {
    if bodyType == BodyTypeFormData then
      match env.decodeMultipart(parameters)
      case Failure(e) => Failure(e)
      case Success(ps) =>
        match Parts(ps, env.readFile)
        case Failure(e) => Failure(e)
        case Success(parts) => Success((Multipart(parts), map["Content-Type" := "multipart/form-data"]))
    else if bodyType == BodyTypeXWWWFormUrlencoded then
      match env.decodeUrlencoded(parameters)
      case Failure(e) => Failure(e)
      case Success(kvs) => Success((Urlencoded(AddAll(kvs)), map["Content-Type" := "application/x-www-form-urlencoded"]))
    else if bodyType == BodyTypeRaw then
      match env.decodeRaw(parameters)
      case Failure(e) => Failure(e)
      case Success(text) => Success((Raw(text), map[]))
    else if bodyType == BodyTypeBinary then
      match env.decodeBinary(parameters)
      case Failure(e) => Failure(e)
      case Success(path) =>
        match env.readFile(path)
        case Failure(e) => Failure(e)
        case Success(f) => Success((Binary(f.content), map["Content-Type" := env.detectContentType(f.content)]))
    else Success((NoBody, map[]))
  }

  /** The request HttpRequest sends for parsed parameters `p`, or the error that stops it first. */
  function PrepareRequest(parameters: seq<byte>, p: RequestParameters, env: HttpEnv): Result<Request, Error>
  {
    match RequestBody(p.bodyType, parameters, env)
    case Failure(e) => Failure(e)
    case Success(built) =>
      if env.newRequest(p.httpMethod, p.url).Some? then Failure(env.newRequest(p.httpMethod, p.url).value)
      else
        var m := Merge(built.1, p.headers, env.interpolate);
        if m.err.Some? then Failure(m.err.value)
        else Success(Request(p.httpMethod, p.url, built.0, m.header))
  }

  /**
   * The Content-Type a prepared request carries: the one its body type fixes,
   * which no user header replaces; for raw, none and unknown body types only
   * a user header can supply one.
   */
  lemma PreparedContentType(parameters: seq<byte>, p: RequestParameters, env: HttpEnv)
    requires PrepareRequest(parameters, p, env).Success?
    ensures var req := PrepareRequest(parameters, p, env).value;
            && req.httpMethod == p.httpMethod && req.url == p.url
            && (p.bodyType == BodyTypeFormData ==> Get(req.header, "Content-Type") == "multipart/form-data")
            && (p.bodyType == BodyTypeXWWWFormUrlencoded ==>
                  Get(req.header, "Content-Type") == "application/x-www-form-urlencoded")
            && (p.bodyType == BodyTypeBinary && env.detectContentType(req.body.content) != "" ==>
                  Get(req.header, "Content-Type") == env.detectContentType(req.body.content))
            && (p.bodyType !in {BodyTypeFormData, BodyTypeXWWWFormUrlencoded, BodyTypeBinary} &&
                Get(req.header, "Content-Type") != "" ==>
                  exists i :: 0 <= i < |p.headers| && p.headers[i].key == "Content-Type")
  {
    var built := RequestBody(p.bodyType, parameters, env).value;
    MergeKeepsSetHeaders(built.1, p.headers, env.interpolate);
  }

  /**
   * The recorded response: status, code and header text, and the body only
   * when Content-Length is positive, "" otherwise; a failure writing the
   * headers or reading the body is returned instead.
   */
  function RecordResponse(resp: HttpResponse): (r: Result<HttpRequestOutput, Error>)
    ensures resp.headerText.Failure? ==> r == Failure(resp.headerText.error)
    ensures r.Success? <==> resp.headerText.Success? && (resp.contentLength > 0 ==> resp.body.Success?)
    ensures r.Success? ==> && r.value.status == resp.status && r.value.statusCode == resp.statusCode
                           && r.value.headers == resp.headerText.value
    ensures r.Success? && resp.contentLength <= 0 ==> r.value.body == ""
    ensures r.Success? && resp.contentLength > 0 ==> r.value.body == resp.body.value
    ensures resp.headerText.Success? && resp.contentLength > 0 && resp.body.Failure? ==> r == Failure(resp.body.error)
  {
    match resp.headerText
    case Failure(e) => Failure(e)
    case Success(headers) =>
      if resp.contentLength > 0 then
        match resp.body
        case Failure(e) => Failure(e)
        case Success(body) => Success(HttpRequestOutput(resp.status, resp.statusCode, headers, body))
      else Success(HttpRequestOutput(resp.status, resp.statusCode, headers, ""))
  }

  /** The outcome of sending: the transport's error, the recording's error, or one record with no ValueID. */
  function Delivered(sent: Result<HttpResponse, Error>): (o: Outcome<HttpRequestOutput>)
    ensures !o.Rehearsed?
    ensures sent.Failure? ==> o == Failed(sent.error)
    ensures o.Produced? <==> sent.Success? && RecordResponse(sent.value).Success?
    ensures o.Produced? ==> o == Produced(RecordResponse(sent.value).value, None)
    ensures sent.Success? && RecordResponse(sent.value).Failure? ==> o == Failed(RecordResponse(sent.value).error)
  {
    match sent
    case Failure(e) => Failed(e)
    case Success(resp) =>
      match RecordResponse(resp)
      case Failure(e) => Failed(e)
      case Success(out) => Produced(out, None)
  }

  /** The request HttpRequest sent, if any, and what it returned. */
  datatype HttpRun = HttpRun(sent: Option<Request>, outcome: Outcome<HttpRequestOutput>)

  /**
   * HttpRequest: parse the parameters (an error is returned even under
   * rehearsal); under rehearsal stop with no output; otherwise send the
   * prepared request, unless preparing it failed, and record the response.
   */
  method HttpRequest(ctx: ActionContext, env: HttpEnv) returns (run: HttpRun)
    ensures var decoded := env.decodeRequest(ctx.action.parameters);
            && (decoded.Failure? ==> run == HttpRun(None, Failed(decoded.error)))
            && (decoded.Success? && ctx.rehearsal ==> run == HttpRun(None, Rehearsed))
            && (decoded.Success? && !ctx.rehearsal ==>
                  var prepared := PrepareRequest(ctx.action.parameters, decoded.value, env);
                  && (prepared.Failure? ==> run == HttpRun(None, Failed(prepared.error)))
                  && (prepared.Success? ==> run == HttpRun(Some(prepared.value), Delivered(env.send(prepared.value)))))
  {
    var parameters := ctx.action.parameters;
    var decoded := env.decodeRequest(parameters);
    if decoded.Failure? {
      return HttpRun(None, Failed(decoded.error));
    }
    if ctx.rehearsal {
      return HttpRun(None, Rehearsed);
    }
    var p := decoded.value;

    var body: Body;
    var header: Header := map[];
    if p.bodyType == BodyTypeFormData {
      var ps := env.decodeMultipart(parameters);
      if ps.Failure? {
        return HttpRun(None, Failed(ps.error));
      }
      var parts := WriteParts(ps.value, env.readFile);
      if parts.Failure? {
        return HttpRun(None, Failed(parts.error));
      }
      body := Multipart(parts.value);
      header := header["Content-Type" := "multipart/form-data"];
    } else if p.bodyType == BodyTypeXWWWFormUrlencoded {
      var kvs := env.decodeUrlencoded(parameters);
      if kvs.Failure? {
        return HttpRun(None, Failed(kvs.error));
      }
      var values := EncodeValues(kvs.value);
      body := Urlencoded(values);
      header := header["Content-Type" := "application/x-www-form-urlencoded"];
    } else if p.bodyType == BodyTypeRaw {
      var text := env.decodeRaw(parameters);
      if text.Failure? {
        return HttpRun(None, Failed(text.error));
      }
      body := Raw(text.value);
    } else if p.bodyType == BodyTypeBinary {
      var path := env.decodeBinary(parameters);
      if path.Failure? {
        return HttpRun(None, Failed(path.error));
      }
      var file := env.readFile(path.value);
      if file.Failure? {
        return HttpRun(None, Failed(file.error));
      }
      body := Binary(file.value.content);
      header := header["Content-Type" := env.detectContentType(file.value.content)];
    } else {
      body := NoBody;
    }
    var reqErr := env.newRequest(p.httpMethod, p.url);
    if reqErr.Some? {
      return HttpRun(None, Failed(reqErr.value));
    }

    var merged := MergeHeaders(header, p.headers, env.interpolate);
    if merged.err.Some? {
      return HttpRun(None, Failed(merged.err.value));
    }
    var req := Request(p.httpMethod, p.url, body, merged.header);
    run := HttpRun(Some(req), Delivered(env.send(req)));
  }
}
