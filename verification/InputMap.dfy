// Rendering a message's parts within a byte budget (crates/harnx-a2a-server/src/input_map.rs): an
// early-stopping counter decides before anything is rendered.
//
// A text is its UTF-8 encoding, one char per byte. The JSON printer is the list of chunks it writes
// and whether it then succeeds; base64 and UTF-8 validation are parameters.
module InputMap {
  import opened Options

  const USIZE_MAX: nat := 0xFFFF_FFFF_FFFF_FFFF

  datatype Json = Json(chunks: seq<string>, encodes: bool)

  datatype Content = Text(text: string) | Data(data: Json) | Url(url: string) | Raw(bytes: string)

  datatype Part = Part(content: Content, mediaType: Option<string>, filename: Option<string>)

  datatype Error =
    | DataPartTooLarge(limit: nat)
    | UnsupportedMediaType(mediaType: string)
    | InvalidUtf8(mediaType: string)
    | JsonEncoding

  datatype Result<+T> = Ok(value: T) | Err(error: Error)

  datatype Input = Input(text: string, medias: seq<string>)

  datatype Codec = Codec(base64: string -> string, validUtf8: string -> bool)

  // ----- What is rendered -----

  predicate StartsWith(text: string, prefix: string) {
    prefix <= text
  }

  function UnwrapOr(value: Option<string>, default: string): string {
    if value.Some? then value.value else default
  }

  function Concat(chunks: seq<string>): string {
    if chunks == [] then "" else chunks[0] + Concat(chunks[1..])
  }

  function FilenameText(part: Part): string {
    if part.filename.Some? then ", filename: " + part.filename.value else ""
  }

  function InlineBlock(part: Part, defaultType: string, fence: string, content: string): string {
    "--- A2A data part (mediaType: " + UnwrapOr(part.mediaType, defaultType) + FilenameText(part) + ") ---\n```" +
    fence + "\n" + content + "\n```\n--- End A2A data part ---"
  }

  function UrlText(part: Part, url: string): string {
    "[A2A file: " + UnwrapOr(part.filename, url) + " (" + UnwrapOr(part.mediaType, "application/octet-stream") + ") " +
    url + "]"
  }

  function RawType(part: Part): string {
    UnwrapOr(part.mediaType, "application/octet-stream")
  }

  function RawFence(mediaType: string): Option<string> {
    if mediaType == "application/json" then Some("json")
    else if StartsWith(mediaType, "text/") then Some("text")
    else None
  }

  predicate IsImage(part: Part) {
    part.content.Raw? && StartsWith(RawType(part), "image/")
  }

  // The block a data or inline-file part is charged for.
  function Block(part: Part): Option<string> {
    match part.content
    case Data(data) => Some(InlineBlock(part, "application/json", "json", Concat(data.chunks)))
    case Raw(bytes) =>
      if IsImage(part) || RawFence(RawType(part)).None? then None
      else Some(InlineBlock(part, RawType(part), RawFence(RawType(part)).value, bytes))
    case _ => None
  }

  function Charge(part: Part): nat {
    if Block(part).Some? then |Block(part).value| else 0
  }

  function Charged(parts: seq<Part>, n: nat): nat
    requires n <= |parts|
  {
    if n == 0 then 0 else Charged(parts, n - 1) + Charge(parts[n - 1])
  }

  // What a part adds to the text; images and refused parts add nothing.
  function Rendering(part: Part): Option<string> {
    match part.content
    case Text(text) => Some(text)
    case Url(url) => Some(UrlText(part, url))
    case _ => Block(part)
  }

  function Renderings(parts: seq<Part>, n: nat): seq<string>
    requires n <= |parts|
  {
    if n == 0 then []
    else Renderings(parts, n - 1) + if Rendering(parts[n - 1]).Some? then [Rendering(parts[n - 1]).value] else []
  }

  function Images(parts: seq<Part>, n: nat, codec: Codec): seq<string>
    requires n <= |parts|
  {
    if n == 0 then []
    else
      var part := parts[n - 1];
      Images(parts, n - 1, codec) +
      if IsImage(part) then ["data:" + RawType(part) + ";base64," + codec.base64(part.content.bytes)] else []
  }

  function Join(texts: seq<string>, separator: string): string {
    if |texts| == 0 then "" else if |texts| == 1 then texts[0] else texts[0] + separator + Join(texts[1..], separator)
  }

  // The separator stands between the texts and nowhere else.
  lemma {:induction false} JoinInParts(first: seq<string>, second: seq<string>, separator: string)
    requires first != [] && second != []
    ensures Join(first + second, separator) == Join(first, separator) + separator + Join(second, separator)
    ensures |first| == 1 ==> Join(first, separator) == first[0]
    decreases |first|
  {
    var whole := first + second;
    if |first| == 1 {
      assert whole[1..] == second;
    } else {
      assert whole[1..] == first[1..] + second;
      JoinInParts(first[1..], second, separator);
      JoinAssociates(first[0], Join(first[1..], separator), Join(second, separator), separator);
    }
  }

  lemma JoinAssociates(a: string, b: string, c: string, separator: string)
    ensures a + separator + (b + separator + c) == (a + separator + b) + separator + c
  {}

  // A block is its banner, the fence with its language, the content, the fence and the closing banner,
  // each on lines of their own.
  lemma BlockIsItsLines(part: Part, defaultType: string, fence: string, content: string)
    ensures InlineBlock(part, defaultType, fence, content)
         == Join(["--- A2A data part (mediaType: " + UnwrapOr(part.mediaType, defaultType) + FilenameText(part)
                    + ") ---",
                  "```" + fence, content, "```", "--- End A2A data part ---"], "\n")
  {
    FiveLines("--- A2A data part (mediaType: ", UnwrapOr(part.mediaType, defaultType), FilenameText(part), ") ---",
              "```", fence, content, "--- End A2A data part ---", "\n");
    OpeningLines();
    ClosingLines();
  }

  lemma OpeningLines()
    ensures ") ---\n```" == ") ---" + "\n" + "```"
  {}

  lemma ClosingLines()
    ensures "\n```\n--- End A2A data part ---" == "\n" + "```" + "\n" + "--- End A2A data part ---"
  {}

  lemma FiveLines(opening: string, mediaType: string, filename: string, end: string, ticks: string, fence: string,
                  content: string, closing: string, separator: string)
    ensures opening + mediaType + filename + (end + separator + ticks) + fence + separator + content
            + (separator + ticks + separator + closing)
         == Join([opening + mediaType + filename + end, ticks + fence, content, ticks, closing], separator)
  {
    var a, b := opening + mediaType + filename + end, ticks + fence;
    JoinFive(a, b, content, ticks, closing, separator);
    Regrouped(opening + mediaType + filename, end, ticks, fence, content, closing, separator);
  }

  lemma Regrouped(a: string, end: string, ticks: string, fence: string, content: string, closing: string, s: string)
    ensures a + (end + s + ticks) + fence + s + content + (s + ticks + s + closing)
         == (a + end) + (s + ((ticks + fence) + (s + (content + (s + (ticks + (s + closing)))))))
  {}

  lemma JoinTwo(first: string, rest: seq<string>, separator: string)
    requires rest != []
    ensures Join([first] + rest, separator) == first + (separator + Join(rest, separator))
  {
    JoinInParts([first], rest, separator);
  }

  lemma JoinFive(a: string, b: string, c: string, d: string, e: string, separator: string)
    ensures Join([a, b, c, d, e], separator)
         == a + (separator + (b + (separator + (c + (separator + (d + (separator + e)))))))
  {
    JoinTwo(d, [e], separator);
    JoinTwo(c, [d] + [e], separator);
    JoinTwo(b, [c] + ([d] + [e]), separator);
    JoinTwo(a, [b] + ([c] + ([d] + [e])), separator);
    assert [a, b, c, d, e] == [a] + ([b] + ([c] + ([d] + [e])));
  }

  // ----- What is refused -----

  // What is wrong with a part when `used` bytes of the budget are gone.
  function Fault(part: Part, used: nat, limit: nat, codec: Codec): Option<Error> {
    match part.content
    case Data(data) =>
      if used + Charge(part) > limit then Some(DataPartTooLarge(limit))
      else if !data.encodes then Some(JsonEncoding)
      else None
    case Raw(bytes) =>
      if IsImage(part) then None
      else if RawFence(RawType(part)).None? then Some(UnsupportedMediaType(RawType(part)))
      else if used + Charge(part) > limit then Some(DataPartTooLarge(limit))
      else if !codec.validUtf8(bytes) then Some(InvalidUtf8(RawType(part)))
      else None
    case _ => None
  }

  // An inline file is text if its type is JSON or text of any kind.
  predicate IsTextType(mediaType: string) {
    mediaType == "application/json" || StartsWith(mediaType, "text/")
  }

  // What each refusal means: size comes before the content, and an unsupported type before either.
  lemma FaultMeans(part: Part, used: nat, limit: nat, codec: Codec)
    ensures var fault := Fault(part, used, limit, codec);
      var fits := Block(part).Some? && used + |Block(part).value| <= limit;
      && (forall t :: fault == Some(UnsupportedMediaType(t)) <==>
            part.content.Raw? && t == RawType(part) && !IsImage(part) && !IsTextType(t))
      && (forall l :: fault == Some(DataPartTooLarge(l)) <==> l == limit && Block(part).Some? && !fits)
      && (fault == Some(JsonEncoding) <==> part.content.Data? && fits && !part.content.data.encodes)
      && (forall t :: fault == Some(InvalidUtf8(t)) <==>
            part.content.Raw? && t == RawType(part) && fits && !codec.validUtf8(part.content.bytes))
    ensures Block(part).Some? <==>
              part.content.Data? || (part.content.Raw? && !IsImage(part) && IsTextType(RawType(part)))
  {
    match part.content
    case Text(_) =>
    case Data(_) =>
    case Url(_) =>
    case Raw(_) => if IsImage(part) {} else if IsTextType(RawType(part)) {}
  }

  // Every part before n is fine.
  ghost predicate FineBefore(parts: seq<Part>, n: nat, limit: nat, codec: Codec)
    requires n <= |parts|
  {
    forall i :: 0 <= i < n ==> Fault(parts[i], Charged(parts, i), limit, codec) == None
  }

  // Apart from its size, nothing is wrong with the part.
  predicate WellFormed(part: Part, codec: Codec) {
    match part.content
    case Data(data) => data.encodes
    case Raw(bytes) => IsImage(part) || (RawFence(RawType(part)).Some? && codec.validUtf8(bytes))
    case _ => true
  }

  lemma {:induction false} ChargedGrows(parts: seq<Part>, m: nat, n: nat)
    requires m <= n <= |parts|
    ensures Charged(parts, m) <= Charged(parts, n)
  {
    if m < n {
      ChargedGrows(parts, m, n - 1);
    }
  }

  // A well-formed part can only be too large.
  lemma OnlySizeMatters(part: Part, used: nat, limit: nat, codec: Codec)
    requires WellFormed(part, codec)
    ensures used + Charge(part) <= limit ==> Fault(part, used, limit, codec) == None
    ensures used <= limit < used + Charge(part) ==> Fault(part, used, limit, codec).Some?
  {}

  // The budget is exact: a message of well-formed parts is accepted exactly when its blocks, banners
  // and fences included, have at most `limit` bytes together.
  lemma {:induction false} AcceptedExactlyWithinTheLimit(parts: seq<Part>, limit: nat, codec: Codec)
    requires forall i :: 0 <= i < |parts| ==> WellFormed(parts[i], codec)
    ensures FineBefore(parts, |parts|, limit, codec) <==> Charged(parts, |parts|) <= limit
  {
    if Charged(parts, |parts|) <= limit {
      forall i | 0 <= i < |parts|
        ensures Fault(parts[i], Charged(parts, i), limit, codec) == None
      {
        ChargedGrows(parts, i + 1, |parts|);
        OnlySizeMatters(parts[i], Charged(parts, i), limit, codec);
      }
    } else {
      OverchargedIsNotFine(parts, |parts|, limit, codec);
    }
  }

  lemma {:induction false} OverchargedIsNotFine(parts: seq<Part>, n: nat, limit: nat, codec: Codec)
    requires n <= |parts| && Charged(parts, n) > limit
    requires forall i :: 0 <= i < |parts| ==> WellFormed(parts[i], codec)
    ensures !FineBefore(parts, n, limit, codec)
  {
    if n > 0 {
      if Charged(parts, n - 1) > limit {
        OverchargedIsNotFine(parts, n - 1, limit, codec);
      } else {
        OnlySizeMatters(parts[n - 1], Charged(parts, n - 1), limit, codec);
      }
    }
  }

  // ----- The counter -----

  class SizeLimitedWriter {
    var bytes: nat
    var limit: nat
    var exceeded: bool

    ghost predicate Valid()
      reads this
    {
      bytes <= limit <= USIZE_MAX
    }

    constructor (limit: nat)
      requires limit <= USIZE_MAX
      ensures Valid() && bytes == 0 && this.limit == limit && !exceeded
    {
      bytes, this.limit, exceeded := 0, limit, false;
    }

    // No addition overflows: a total no usize holds is over every limit.
    method AddBytes(count: nat) returns (ok: bool)
      requires Valid()
      modifies `bytes, `exceeded
      ensures Valid()
      ensures ok <==> !old(exceeded) && old(bytes) + count <= limit
      ensures ok ==> bytes == old(bytes) + count && !exceeded
      ensures !ok ==> bytes == old(bytes) && exceeded
    {
      var total := if bytes + count <= USIZE_MAX then Some(bytes + count) else None;
      if total.Some? && !exceeded && total.value <= limit {
        bytes := total.value;
        return true;
      }
      exceeded := true;
      return false;
    }

    // Chunks written one after the other, up to the first that does not fit.
    method WriteAll(chunks: seq<string>) returns (ok: bool)
      requires Valid() && !exceeded
      modifies `bytes, `exceeded
      ensures Valid() && exceeded == !ok
      ensures ok <==> old(bytes) + |Concat(chunks)| <= limit
      ensures ok ==> bytes == old(bytes) + |Concat(chunks)|
    {
      ok := true;
      assert chunks[0..] == chunks;
      for i := 0 to |chunks|
        invariant Valid() && !exceeded && ok
        invariant bytes + |Concat(chunks[i..])| == old(bytes) + |Concat(chunks)|
      {
        assert chunks[i..][0] == chunks[i] && chunks[i..][1..] == chunks[i + 1..];
        if chunks[i] != "" {
          ok := AddBytes(|chunks[i]|);
          if !ok { return; }
        }
      }
    }
  }

  // ----- Rendering -----

  lemma ConcatOf(a: string, b: string, c: string)
    ensures Concat([a, b]) == a + b && Concat([a, b, c]) == a + b + c
  {
    assert [c][1..] == [] && Concat([c]) == c + "" == c;
    assert [b, c][1..] == [c] && Concat([b, c]) == b + c;
    assert [b][1..] == [] && Concat([b]) == b + "" == b;
    assert [a, b][1..] == [b];
    assert [a, b, c][1..] == [b, c] && a + (b + c) == a + b + c;
  }

  class PartRenderState {
    const limit: nat
    const codec: Codec
    var dataBytes: nat
    var medias: seq<string>

    ghost predicate Valid()
      reads this
    {
      dataBytes <= limit <= USIZE_MAX
    }

    constructor (limit: nat, codec: Codec)
      requires limit <= USIZE_MAX
      ensures Valid() && this.limit == limit && this.codec == codec && dataBytes == 0 && medias == []
    {
      this.limit, this.codec, dataBytes, medias := limit, codec, 0, [];
    }

    method CountBytes(count: nat) returns (ok: bool)
      requires Valid()
      modifies `dataBytes
      ensures Valid()
      ensures ok <==> old(dataBytes) + count <= limit
      ensures dataBytes == if ok then old(dataBytes) + count else old(dataBytes)
    {
      var total := if dataBytes + count <= USIZE_MAX then Some(dataBytes + count) else None;
      ok := total.Some? && total.value <= limit;
      if ok {
        dataBytes := total.value;
      }
    }

    // The banner and fences are counted without being rendered.
    method BlockCounter(part: Part, defaultType: string, fence: string) returns (ok: bool, counter: SizeLimitedWriter)
      requires Valid()
      ensures fresh(counter) && counter.Valid() && counter.limit == limit - dataBytes
      ensures ok <==> dataBytes + |InlineBlock(part, defaultType, fence, "")| <= limit
      ensures ok ==> !counter.exceeded && counter.bytes == |InlineBlock(part, defaultType, fence, "")|
    {
      counter := new SizeLimitedWriter(if dataBytes <= limit then limit - dataBytes else 0);
      var opening, closing := "--- A2A data part (mediaType: ", "\n\n```\n--- End A2A data part ---";
      ConcatOf(opening, UnwrapOr(part.mediaType, defaultType), "");
      ConcatOf(", filename: ", UnwrapOr(part.filename, ""), "");
      ConcatOf(") ---\n```", fence, closing);
      ok := counter.WriteAll([opening, UnwrapOr(part.mediaType, defaultType)]);
      if !ok { return; }
      if part.filename.Some? {
        ok := counter.WriteAll([", filename: ", part.filename.value]);
        if !ok { return; }
      }
      ok := counter.WriteAll([") ---\n```", fence, closing]);
    }

    method RenderDataPart(part: Part) returns (result: Result<string>)
      requires Valid() && part.content.Data?
      modifies `dataBytes
      ensures Valid()
      ensures match Fault(part, old(dataBytes), limit, codec)
              case Some(error) => result == Err(error)
              case None => result == Ok(Block(part).value) && dataBytes == old(dataBytes) + Charge(part)
    {
      var data := part.content.data;
      var ok, counter := BlockCounter(part, "application/json", "json");
      if !ok { return Err(DataPartTooLarge(limit)); }
      ok := counter.WriteAll(data.chunks);
      if !ok || !data.encodes {
        return Err(if counter.exceeded then DataPartTooLarge(limit) else JsonEncoding);
      }
      ok := CountBytes(counter.bytes);
      assert ok; // the cumulative check never fails
      if !ok { return Err(DataPartTooLarge(limit)); }
      return Ok(InlineBlock(part, "application/json", "json", Concat(data.chunks)));
    }

    method RenderRawPart(part: Part) returns (result: Result<Option<string>>)
      requires Valid() && part.content.Raw?
      modifies this
      ensures Valid()
      ensures match Fault(part, old(dataBytes), limit, codec)
              case Some(error) => result == Err(error)
              case None =>
                && result == Ok(Block(part))
                && dataBytes == old(dataBytes) + Charge(part)
                && medias == old(medias) + Images([part], 1, codec)
    {
      var bytes := part.content.bytes;
      var mediaType := UnwrapOr(part.mediaType, "application/octet-stream");
      if StartsWith(mediaType, "image/") {
        medias := medias + ["data:" + mediaType + ";base64," + codec.base64(bytes)];
        return Ok(None);
      }
      var fence := RawFence(mediaType);
      if fence.None? { return Err(UnsupportedMediaType(mediaType)); }
      var ok, counter := BlockCounter(part, mediaType, fence.value);
      if !ok { return Err(DataPartTooLarge(limit)); }
      ok := counter.AddBytes(|bytes|);
      if !ok { return Err(DataPartTooLarge(limit)); }
      ok := CountBytes(counter.bytes);
      assert ok; // the cumulative check never fails
      if !ok { return Err(DataPartTooLarge(limit)); }
      if !codec.validUtf8(bytes) { return Err(InvalidUtf8(mediaType)); }
      return Ok(Some(InlineBlock(part, mediaType, fence.value, bytes)));
    }

    method RenderPart(part: Part) returns (result: Result<Option<string>>)
      requires Valid()
      modifies this
      ensures Valid()
      ensures Outcome(part, limit, codec, old(dataBytes), old(medias), result, dataBytes, medias)
    {
      match part.content
      case Text(text) => result := Ok(Some(text));
      case Data(data) =>
        var block := RenderDataPart(part);
        result := match block case Ok(text) => Ok(Some(text)) case Err(error) => Err(error);
      case Url(url) => result := Ok(Some(UrlText(part, url)));
      case Raw(bytes) => result := RenderRawPart(part);
    }
  }

  // The refusal is the fault of part i, the first one at fault.
  ghost predicate FirstFault(parts: seq<Part>, i: nat, limit: nat, codec: Codec, error: Error)
    requires i < |parts|
  {
    FineBefore(parts, i, limit, codec) && Fault(parts[i], Charged(parts, i), limit, codec) == Some(error)
  }

  // What the state and the texts are when the first n parts are done.
  ghost predicate RenderedSoFar(
    parts: seq<Part>, n: nat, limit: nat, codec: Codec, rendered: seq<string>, medias: seq<string>, dataBytes: nat)
    requires n <= |parts|
  {
    && FineBefore(parts, n, limit, codec) && rendered == Renderings(parts, n)
    && medias == Images(parts, n, codec) && dataBytes == Charged(parts, n)
  }

  lemma OneMorePart(
    parts: seq<Part>, n: nat, limit: nat, codec: Codec, rendered: seq<string>, medias: seq<string>, used: nat,
    piece: Result<Option<string>>, usedAfter: nat, mediasAfter: seq<string>)
    requires n < |parts| && RenderedSoFar(parts, n, limit, codec, rendered, medias, used)
    requires Outcome(parts[n], limit, codec, used, medias, piece, usedAfter, mediasAfter) && piece.Ok?
    ensures RenderedSoFar(parts, n + 1, limit, codec,
                          if piece.value.Some? then rendered + [piece.value.value] else rendered,
                          mediasAfter, usedAfter)
  {
    ImagesOneMore(parts, n, codec);
  }

  lemma ImagesOneMore(parts: seq<Part>, i: nat, codec: Codec)
    requires i < |parts|
    ensures Images(parts, i + 1, codec) == Images(parts, i, codec) + Images([parts[i]], 1, codec)
  {
    assert Images([parts[i]], 0, codec) == [];
  }

  lemma Refused(
    parts: seq<Part>, n: nat, limit: nat, codec: Codec, rendered: seq<string>, medias: seq<string>, used: nat,
    piece: Result<Option<string>>, usedAfter: nat, mediasAfter: seq<string>)
    requires n < |parts| && RenderedSoFar(parts, n, limit, codec, rendered, medias, used)
    requires Outcome(parts[n], limit, codec, used, medias, piece, usedAfter, mediasAfter) && piece.Err?
    ensures FirstFault(parts, n, limit, codec, piece.error) && !FineBefore(parts, |parts|, limit, codec)
  {
    assert Fault(parts[n], Charged(parts, n), limit, codec) == Some(piece.error);
  }

  // A part's outcome: refused for its fault, or rendered, charged and, if an image, listed.
  ghost predicate Outcome(
    part: Part, limit: nat, codec: Codec, used: nat, medias: seq<string>, result: Result<Option<string>>,
        usedAfter: nat,
    mediasAfter: seq<string>)
  {
    match Fault(part, used, limit, codec)
    case Some(error) => result == Err(error)
    case None =>
      && result == Ok(Rendering(part)) && usedAfter == used + Charge(part)
      && mediasAfter == medias + Images([part], 1, codec)
  }

  method PartsToInput(parts: seq<Part>, limit: nat, codec: Codec) returns (result: Result<Input>)
    requires limit <= USIZE_MAX
    ensures result.Ok? <==> FineBefore(parts, |parts|, limit, codec)
    ensures result.Ok? ==>
              result.value == Input(Join(Renderings(parts, |parts|), "\n\n"), Images(parts, |parts|, codec))
    ensures result.Err? ==> exists i :: 0 <= i < |parts| && FirstFault(parts, i, limit, codec, result.error)
  {
    var state := new PartRenderState(limit, codec);
    var rendered := [];
    for i := 0 to |parts|
      invariant fresh(state) && state.Valid() && state.limit == limit && state.codec == codec
      invariant RenderedSoFar(parts, i, limit, codec, rendered, state.medias, state.dataBytes)
    {
      ghost var medias, dataBytes := state.medias, state.dataBytes;
      var piece := state.RenderPart(parts[i]);
      if piece.Err? {
        Refused(parts, i, limit, codec, rendered, medias, dataBytes, piece, state.dataBytes, state.medias);
        return Err(piece.error);
      }
      OneMorePart(parts, i, limit, codec, rendered, medias, dataBytes, piece, state.dataBytes, state.medias);
      if piece.value.Some? {
        rendered := rendered + [piece.value.value];
      }
    }
    result := Ok(Input(Join(rendered, "\n\n"), state.medias));
  }
}
