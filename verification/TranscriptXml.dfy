/** The timed-text XML form: attributes, elements, and the round trip of its renderings. */
module TranscriptXml {
  import opened Wrappers
  import opened Numbers
  import opened Text
  import opened TimedText

  datatype Segment = Segment(startMs: nat, durationMs: nat, text: string)

  datatype Limits = Limits(maxTrackBytes: nat, maxSegments: nat, maxSegmentCharacters: nat)

  /** Library code: float seconds to milliseconds, and the JSON form of a payload. */
  datatype Library = Library(seconds: string -> Result<nat, YoutubeError>, json3: string -> Result<seq<Segment>, YoutubeError>)

  // ----- attributes

  predicate EndsWith(s: string, suffix: string) { |suffix| <= |s| && s[|s| - |suffix|..] == suffix }

  datatype Attribute = Attribute(key: string, value: string)

  /** The first `key="value"` of a text and what follows it. */
  function NextAttribute(search: string): (r: Option<(Attribute, string)>)
    ensures r.Some? ==> |r.value.1| < |search|
  {
    var equals := Find(search, "=");
    if equals.None? then None
    else
      var rest := search[equals.value + 1..];
      if rest == [] || rest[0] != '"' then None
      else
        var quoted := rest[1..];
        var close := Find(quoted, "\"");
        if close.None? then None
        else Some((Attribute(Trim(search[..equals.value]), quoted[..close.value]), quoted[close.value + 1..]))
  }

  function AttributeValue(search: string, name: string): Option<string>
    decreases |search|
  {
    match NextAttribute(search)
    case None => None
    case Some((attribute, rest)) =>
      if EndsWith(attribute.key, name) then Some(attribute.value) else AttributeValue(rest, name)
  }

  /** `attribute_value`: the loop over the attributes. */
  method LookUp(attributes: string, name: string) returns (r: Option<string>)
    ensures r == AttributeValue(attributes, name)
  {
    var search := attributes;
    while true
      invariant AttributeValue(search, name) == AttributeValue(attributes, name)
      decreases |search|
    {
      var next := NextAttribute(search);
      if next.None? {
        return None;
      }
      if EndsWith(next.value.0.key, name) {
        return Some(next.value.0.value);
      }
      search := next.value.1;
    }
  }

  function AttributesText(attributes: seq<Attribute>): string {
    if attributes == [] then "" else AttributeText(attributes[0]) + AttributesText(attributes[1..])
  }

  function AttributeText(a: Attribute): string { " " + a.key + "=" + ("\"" + a.value + "\"") }

  predicate AttributeValid(a: Attribute) {
    a.key != [] && !IsWhitespace(a.key[0]) && !IsWhitespace(a.key[|a.key| - 1]) && Lacks(a.key, '=') && Lacks(a.value, '"')
  }

  predicate AttributesValid(attributes: seq<Attribute>) {
    forall i :: 0 <= i < |attributes| ==> AttributeValid(attributes[i])
  }

  /** The first attribute whose key ends with the name. */
  function FirstEnding(attributes: seq<Attribute>, name: string): (r: Option<nat>)
    ensures r.Some? ==> r.value < |attributes| && EndsWith(attributes[r.value].key, name)
  {
    if attributes == [] then None
    else if EndsWith(attributes[0].key, name) then Some(0)
    else
      match FirstEnding(attributes[1..], name)
      case None => None
      case Some(i) => Some(i + 1)
  }

  lemma TrimPadded(key: string)
    requires key != [] && !IsWhitespace(key[0]) && !IsWhitespace(key[|key| - 1])
    ensures Trim(" " + key) == key
  {
    var s := " " + key;
    assert s[0] == ' ' && s[1] == key[0];
    assert SkipWhitespace(s) == 1;
    assert s[1..] == key;
  }

  lemma NextOf(key: string, value: string, rest: string)
    requires Lacks(key, '=') && Lacks(value, '"')
    ensures NextAttribute(key + "=" + ("\"" + (value + "\"" + rest))) == Some((Attribute(Trim(key), value), rest))
  {
    var quoted := value + "\"" + rest;
    var search := key + "=" + ("\"" + quoted);
    FindAfter(key, "=", "\"" + quoted);
    FindAfter(value, "\"", rest);
    assert search[..|key|] == key;
    assert search[|key| + 1..] == "\"" + quoted;
    assert ("\"" + quoted)[1..] == quoted;
    assert quoted[..|value|] == value;
    assert quoted[|value| + 1..] == rest;
  }

  lemma AttributeTextIs(a: Attribute, rest: string)
    ensures AttributeText(a) + rest == (" " + a.key) + "=" + ("\"" + (a.value + "\"" + rest))
  {
  }

  lemma NextIs(a: Attribute, rest: string)
    requires AttributeValid(a)
    ensures NextAttribute(AttributeText(a) + rest) == Some((a, rest))
  {
    AttributeTextIs(a, rest);
    NextOf(" " + a.key, a.value, rest);
    TrimPadded(a.key);
  }

  lemma LookupStep(a: Attribute, rest: string, name: string)
    requires AttributeValid(a)
    ensures AttributeValue(AttributeText(a) + rest, name)
            == if EndsWith(a.key, name) then Some(a.value) else AttributeValue(rest, name)
  {
    NextIs(a, rest);
  }

  function FirstEndingValue(attributes: seq<Attribute>, name: string): Option<string> {
    match FirstEnding(attributes, name)
    case None => None
    case Some(i) => Some(attributes[i].value)
  }

  lemma FirstEndingStep(attributes: seq<Attribute>, name: string)
    requires attributes != []
    ensures FirstEndingValue(attributes, name)
            == if EndsWith(attributes[0].key, name) then Some(attributes[0].value) else FirstEndingValue(attributes[1..], name)
  {
  }

  /** On every attribute list the lookup answers the first attribute whose key ENDS with the name. */
  lemma {:induction false} LookupIsFirstEnding(attributes: seq<Attribute>, name: string)
    requires AttributesValid(attributes)
    ensures AttributeValue(AttributesText(attributes), name) == FirstEndingValue(attributes, name)
    decreases |attributes|
  {
    if attributes == [] {
      FindChar("", '=');
    } else {
      LookupStep(attributes[0], AttributesText(attributes[1..]), name);
      FirstEndingStep(attributes, name);
      LookupIsFirstEnding(attributes[1..], name);
    }
  }

  /** The attribute that carries the name itself. */
  function FirstNamed(attributes: seq<Attribute>, name: string): (r: Option<nat>)
    ensures r.Some? ==> r.value < |attributes| && attributes[r.value].key == name
  {
    if attributes == [] then None
    else if attributes[0].key == name then Some(0)
    else
      match FirstNamed(attributes[1..], name)
      case None => None
      case Some(i) => Some(i + 1)
  }

  /** No key before the named one, or none at all without it, merely ends with the name. */
  predicate NoLookalikeFirst(attributes: seq<Attribute>, name: string) {
    attributes == [] || attributes[0].key == name
    || (!EndsWith(attributes[0].key, name) && NoLookalikeFirst(attributes[1..], name))
  }

  lemma FirstsShift(attributes: seq<Attribute>, name: string)
    requires attributes != [] && attributes[0].key != name && !EndsWith(attributes[0].key, name)
    ensures FirstEnding(attributes, name) == FirstNamed(attributes, name)
            <==> FirstEnding(attributes[1..], name) == FirstNamed(attributes[1..], name)
  {
  }

  /** The lookup reads the named attribute exactly when no other key ending like it comes first. */
  lemma {:induction false} LookupIsByNameExactly(attributes: seq<Attribute>, name: string)
    ensures FirstEnding(attributes, name) == FirstNamed(attributes, name) <==> NoLookalikeFirst(attributes, name)
    decreases |attributes|
  {
    if attributes != [] {
      var key := attributes[0].key;
      if key == name {
        assert key[0..] == key;
        assert FirstEnding(attributes, name) == Some(0) == FirstNamed(attributes, name);
      } else if EndsWith(key, name) {
        assert FirstEnding(attributes, name) == Some(0) != FirstNamed(attributes, name);
      } else {
        LookupIsByNameExactly(attributes[1..], name);
        FirstsShift(attributes, name);
      }
    }
  }

  /** An `id` in front of `d` is read as `d`. */
  lemma LookalikeIsRead(id: string, d: string)
    requires Lacks(id, '"') && Lacks(d, '"')
    ensures AttributeValue(AttributesText([Attribute("id", id), Attribute("d", d)]), "d") == Some(id)
  {
    var attributes := [Attribute("id", id), Attribute("d", d)];
    assert AttributeValid(attributes[0]) && AttributeValid(attributes[1]);
    assert "id"[1..] == "d";
    LookupIsFirstEnding(attributes, "d");
    FirstEndingStep(attributes, "d");
  }

  // ----- timing

  datatype Timing = Timing(startMs: nat, durationMs: nat)

  function TimingOf(lib: Library, attributes: string): Result<Timing, YoutubeError> {
    var start := AttributeValue(attributes, "start");
    var dur := AttributeValue(attributes, "dur");
    var tick := AttributeValue(attributes, "t");
    var span := AttributeValue(attributes, "d");
    if start.Some? && dur.Some? then
      match lib.seconds(start.value)
      case Err(e) => Err(e)
      case Ok(from) =>
        match lib.seconds(dur.value)
        case Err(e) => Err(e)
        case Ok(length) => Ok(Timing(from, length))
    else if tick.Some? && span.Some? then
      match (ParseUnsigned(Trim(tick.value), 10, U64_MAX), ParseUnsigned(Trim(span.value), 10, U64_MAX))
      case (Some(from), Some(length)) => Ok(Timing(from, length))
      case _ => Err(Schema)
    else Err(Schema)
  }

  /** How a rendering writes its times: whole milliseconds, or seconds in the form the library reads. */
  datatype Times = Ticks(start: nat, duration: nat) | Seconds(from: string, length: string)

  function TimeAttributes(times: Times): seq<Attribute> {
    match times
    case Ticks(start, duration) => [Attribute("t", Decimal(start)), Attribute("d", Decimal(duration))]
    case Seconds(from, length) => [Attribute("start", from), Attribute("dur", length)]
  }

  predicate TimesValid(times: Times) {
    times.Seconds? ==> Lacks(times.from, '"') && Lacks(times.from, '>') && Lacks(times.length, '"') && Lacks(times.length, '>')
  }

  /** The times a rendering stands for. */
  function Meant(lib: Library, times: Times): Option<Timing> {
    match times
    case Ticks(start, duration) => if start <= U64_MAX && duration <= U64_MAX then Some(Timing(start, duration)) else None
    case Seconds(from, length) =>
      if lib.seconds(from).Ok? && lib.seconds(length).Ok? then Some(Timing(lib.seconds(from).value, lib.seconds(length).value)) else None
  }

  lemma TrimDigits(n: nat)
    ensures Trim(Decimal(n)) == Decimal(n)
  {
    assert SkipWhitespace(Decimal(n)) == 0;
    assert Decimal(n)[0..] == Decimal(n);
  }

  lemma PairFound(a: Attribute, b: Attribute, name: string)
    ensures FirstEndingValue([a, b], name)
            == if EndsWith(a.key, name) then Some(a.value) else if EndsWith(b.key, name) then Some(b.value) else None
  {
    assert [a, b][1..] == [b] && [b][1..] == [];
    FirstEndingStep([a, b], name);
    FirstEndingStep([b], name);
  }

  lemma PairRead(a: Attribute, b: Attribute, name: string)
    requires AttributeValid(a) && AttributeValid(b)
    ensures AttributeValue(AttributesText([a, b]), name)
            == if EndsWith(a.key, name) then Some(a.value) else if EndsWith(b.key, name) then Some(b.value) else None
  {
    LookupIsFirstEnding([a, b], name);
    PairFound(a, b, name);
  }

  lemma TicksRead(lib: Library, start: nat, duration: nat)
    requires start <= U64_MAX && duration <= U64_MAX
    ensures TimingOf(lib, AttributesText(TimeAttributes(Ticks(start, duration)))) == Ok(Timing(start, duration))
  {
    var a, b := Attribute("t", Decimal(start)), Attribute("d", Decimal(duration));
    assert "t"[0..] == "t" && "d"[0..] == "d";
    PairRead(a, b, "start");
    PairRead(a, b, "dur");
    PairRead(a, b, "t");
    PairRead(a, b, "d");
    TrimDigits(start);
    TrimDigits(duration);
    DecimalParses(start, U64_MAX);
    DecimalParses(duration, U64_MAX);
  }

  lemma SecondsRead(lib: Library, from: string, length: string)
    requires Lacks(from, '"') && Lacks(length, '"') && lib.seconds(from).Ok? && lib.seconds(length).Ok?
    ensures TimingOf(lib, AttributesText(TimeAttributes(Seconds(from, length))))
            == Ok(Timing(lib.seconds(from).value, lib.seconds(length).value))
  {
    var a, b := Attribute("start", from), Attribute("dur", length);
    assert "start"[0..] == "start" && "dur"[0..] == "dur";
    assert !EndsWith("start", "dur") by { assert "start"[2..][0] != "dur"[0]; }
    PairRead(a, b, "start");
    PairRead(a, b, "dur");
  }

  lemma TimesRead(lib: Library, times: Times)
    requires TimesValid(times) && Meant(lib, times).Some?
    ensures TimingOf(lib, AttributesText(TimeAttributes(times))) == Ok(Meant(lib, times).value)
  {
    match times
    case Ticks(start, duration) => TicksRead(lib, start, duration);
    case Seconds(from, length) => SecondsRead(lib, from, length);
  }

  // ----- elements

  /** `find([' ', '>'])`. */
  function FindNameEnd(text: string, from: nat := 0): (r: Option<nat>)
    requires from <= |text|
    ensures r.Some? ==> from <= r.value < |text| && (text[r.value] == ' ' || text[r.value] == '>')
    ensures r.Some? ==> forall j :: from <= j < r.value ==> text[j] != ' ' && text[j] != '>'
    decreases |text| - from
  {
    if from == |text| then None
    else if text[from] == ' ' || text[from] == '>' then Some(from)
    else FindNameEnd(text, from + 1)
  }

  /** What one round of the element scan finds. */
  datatype Found = Finished | Malformed | Skipped(rest: string) | Element(attributes: string, raw: string, rest: string)

  function Closing(name: string): string { "</" + name + ">" }

  /** The element whose name ends at `nameEnd` of the text behind its opening bracket. */
  function ElementOf(after: string, nameEnd: nat): (r: Found)
    requires nameEnd < |after| && forall j :: 0 <= j < nameEnd ==> after[j] != '>'
    ensures r.Malformed? || (r.Element? && |r.rest| < |after|)
  {
    FindChar(after, '>');
    var tagEnd := Find(after, ">");
    if tagEnd.None? then Malformed
    else
      var closing := Closing(after[..nameEnd]);
      var body := after[tagEnd.value + 1..];
      var textEnd := Find(body, closing);
      if textEnd.None? then Malformed
      else Element(after[nameEnd..tagEnd.value], body[..textEnd.value], body[textEnd.value + |closing|..])
  }

  function Scan(cursor: string): (r: Found)
    ensures r.Skipped? || r.Element? ==> |r.rest| < |cursor|
  {
    var open := Find(cursor, "<");
    if open.None? then Finished
    else
      var after := cursor[open.value + 1..];
      var nameEnd := FindNameEnd(after);
      if nameEnd.None? then Malformed
      else if after[..nameEnd.value] != "text" && after[..nameEnd.value] != "p" then Skipped(after)
      else ElementOf(after, nameEnd.value)
  }

  function Collect(segments: seq<Segment>, timing: Timing, text: string, limits: Limits): Result<seq<Segment>, YoutubeError> {
    if |text| > limits.maxSegmentCharacters || |segments| >= limits.maxSegments then Err(ResourceLimit)
    else Ok(segments + [Segment(timing.startMs, timing.durationMs, text)])
  }

  /** The segments collected so far and those of the rest of the payload. */
  function Segments(lib: Library, cursor: string, segments: seq<Segment>, limits: Limits): Result<seq<Segment>, YoutubeError>
    decreases |cursor|
  {
    match Scan(cursor)
    case Finished => Ok(segments)
    case Malformed => Err(Schema)
    case Skipped(rest) => Segments(lib, rest, segments, limits)
    case Element(attributes, raw, rest) =>
      match TimingOf(lib, attributes)
      case Err(e) => Err(e)
      case Ok(timing) =>
        match Collect(segments, timing, Decode(raw), limits)
        case Err(e) => Err(e)
        case Ok(more) => Segments(lib, rest, more, limits)
  }

  predicate WithinLimits(segments: seq<Segment>, limits: Limits) {
    |segments| <= limits.maxSegments && forall i :: 0 <= i < |segments| ==> |segments[i].text| <= limits.maxSegmentCharacters
  }

  /** `xml_segments`: the element loop, bounded by the segment limits on every input. */
  method XmlSegments(lib: Library, payload: string, limits: Limits) returns (r: Result<seq<Segment>, YoutubeError>)
    ensures r == Segments(lib, payload, [], limits)
    ensures r.Ok? ==> WithinLimits(r.value, limits)
  {
    var segments: seq<Segment> := [];
    var cursor := payload;
    while true
      invariant Segments(lib, cursor, segments, limits) == Segments(lib, payload, [], limits)
      invariant WithinLimits(segments, limits)
      decreases |cursor|
    {
      var found := Scan(cursor);
      match found {
        case Finished => return Ok(segments);
        case Malformed => return Err(Schema);
        case Skipped(rest) => cursor := rest;
        case Element(attributes, raw, rest) =>
          var timing := TimingOf(lib, attributes);
          if timing.Err? {
            return Err(timing.error);
          }
          var text := DecodeEntities(raw);
          var collected := Collect(segments, timing.value, text, limits);
          if collected.Err? {
            return Err(collected.error);
          }
          segments, cursor := collected.value, rest;
      }
    }
  }

  /** `parse_timedtext` on decoded text: the byte budget, the format sniff, and a nonempty result. */
  method ParseTimedText(lib: Library, payload: string, limits: Limits) returns (r: Result<seq<Segment>, YoutubeError>)
    ensures r == Parsed(lib, payload, limits)
    ensures r.Ok? ==> r.value != []
  {
    if Bytes(payload) > limits.maxTrackBytes {
      return Err(ResourceLimit);
    }
    var trimmed := payload[SkipWhitespace(payload)..];
    if trimmed == [] {
      return Err(Schema);
    }
    var parsed: Result<seq<Segment>, YoutubeError> := Err(Schema);
    if trimmed[0] == '<' {
      parsed := XmlSegments(lib, trimmed, limits);
    } else if trimmed[0] == '{' {
      parsed := lib.json3(trimmed);
    }
    if parsed.Ok? && parsed.value == [] {
      return Err(Schema);
    }
    r := parsed;
  }

  function Parsed(lib: Library, payload: string, limits: Limits): Result<seq<Segment>, YoutubeError> {
    var trimmed := payload[SkipWhitespace(payload)..];
    if Bytes(payload) > limits.maxTrackBytes then Err(ResourceLimit)
    else if trimmed == [] then Err(Schema)
    else
      var segments := if trimmed[0] == '<' then Segments(lib, trimmed, [], limits)
                      else if trimmed[0] == '{' then lib.json3(trimmed) else Err(Schema);
      if segments.Ok? && segments.value == [] then Err(Schema) else segments
  }

  // ----- renderings

  /** One element of a payload: either name, either form of times, any text. */
  datatype Cue = Cue(name: string, times: Times, text: string)

  predicate Named(name: string) { name == "text" || name == "p" }

  predicate CueValid(cue: Cue) { Named(cue.name) && TimesValid(cue.times) }

  function CueText(cue: Cue): string {
    "<" + (cue.name + AttributesText(TimeAttributes(cue.times)) + ">" + (Escape(cue.text) + Closing(cue.name)))
  }

  /** Elements in order, each followed by the same text between elements. */
  function Rendering(cues: seq<Cue>, gap: string): string {
    if cues == [] then "" else CueText(cues[0]) + (gap + Rendering(cues[1..], gap))
  }

  predicate CueFits(lib: Library, cue: Cue, limits: Limits) {
    CueValid(cue) && Meant(lib, cue.times).Some? && |cue.text| <= limits.maxSegmentCharacters
  }

  function SegmentOf(lib: Library, cue: Cue): Segment {
    var timing := if Meant(lib, cue.times).Some? then Meant(lib, cue.times).value else Timing(0, 0);
    Segment(timing.startMs, timing.durationMs, cue.text)
  }

  function SegmentsOf(lib: Library, cues: seq<Cue>): (r: seq<Segment>)
    ensures |r| == |cues| && forall i :: 0 <= i < |r| ==> r[i] == SegmentOf(lib, cues[i])
  {
    seq(|cues|, i requires 0 <= i < |cues| => SegmentOf(lib, cues[i]))
  }

  lemma {:induction false} EscapeLacks(s: string)
    ensures Lacks(Escape(s), '<')
  {
    if s != [] {
      EscapeLacks(s[1..]);
      assert Lacks(EscapeChar(s[0]), '<');
    }
  }

  lemma TimesText(times: Times)
    requires TimesValid(times)
    ensures var text := AttributesText(TimeAttributes(times)); text != [] && text[0] == ' ' && Lacks(text, '>')
  {
    var a, b := TimeAttributes(times)[0], TimeAttributes(times)[1];
    assert TimeAttributes(times)[1..] == [b] && [b][1..] == [];
    assert AttributesText([b]) == AttributeText(b);
    assert Lacks(AttributeText(a), '>') && Lacks(AttributeText(b), '>');
  }

  lemma TagSplits(name: string, attributes: string, tail: string)
    requires Lacks(name, '>') && Lacks(attributes, '>')
    ensures var after := name + attributes + ">" + tail;
            && Find(after, ">") == Some(|name| + |attributes|) && after[..|name|] == name
            && after[|name|..|name| + |attributes|] == attributes && after[|name| + |attributes| + 1..] == tail
  {
    assert Lacks(name + attributes, '>');
    FindAfter(name + attributes, ">", tail);
  }

  lemma BodySplits(body: string, closing: string, rest: string)
    requires Lacks(body, '<') && closing != [] && closing[0] == '<'
    ensures var tail := body + closing + rest;
            Find(tail, closing) == Some(|body|) && tail[..|body|] == body && tail[|body| + |closing|..] == rest
  {
    FindAfter(body, closing, rest);
  }

  lemma ElementFound(name: string, attributes: string, body: string, rest: string)
    requires Lacks(name, '>') && Lacks(attributes, '>') && Lacks(body, '<')
    ensures var after := name + attributes + ">" + (body + Closing(name) + rest);
            (forall j :: 0 <= j < |name| ==> after[j] != '>') && ElementOf(after, |name|) == Element(attributes, body, rest)
  {
    var tail := body + Closing(name) + rest;
    var after := name + attributes + ">" + tail;
    TagSplits(name, attributes, tail);
    BodySplits(body, Closing(name), rest);
    assert forall j :: 0 <= j < |name| ==> after[j] == name[j];
  }

  lemma NameFound(name: string, tail: string)
    requires Named(name) && tail != [] && tail[0] == ' '
    ensures FindNameEnd(name + tail) == Some(|name|)
  {
    var after := name + tail;
    NameLacks(name);
    assert after[|name|] == ' ';
    assert forall j :: 0 <= j < |name| ==> after[j] == name[j];
    NameEndExists(after, |name|, 0);
  }

  lemma {:induction false} NameEndExists(text: string, i: nat, from: nat)
    requires from <= i < |text| && text[i] == ' '
    ensures FindNameEnd(text, from).Some? && FindNameEnd(text, from).value <= i
    decreases i - from
  {
    if from < i { NameEndExists(text, i, from + 1); }
  }

  lemma NameLacks(name: string)
    requires Named(name)
    ensures Lacks(name, '>') && Lacks(name, ' ')
  {
  }

  lemma TagNamed(name: string, attributes: string, tail: string)
    requires Named(name) && attributes != [] && attributes[0] == ' '
    ensures var after := name + attributes + ">" + tail; FindNameEnd(after) == Some(|name|) && after[..|name|] == name
  {
    assert name + attributes + ">" + tail == name + (attributes + ">" + tail);
    NameFound(name, attributes + ">" + tail);
  }

  lemma ScanElement(name: string, attributes: string, body: string, rest: string)
    requires Named(name) && attributes != [] && attributes[0] == ' ' && Lacks(attributes, '>') && Lacks(body, '<')
    ensures Scan("<" + (name + attributes + ">" + (body + Closing(name) + rest))) == Element(attributes, body, rest)
  {
    var tail := body + Closing(name) + rest;
    var after := name + attributes + ">" + tail;
    NameLacks(name);
    ElementFound(name, attributes, body, rest);
    TagNamed(name, attributes, tail);
    ScanOpened(after, name);
  }

  /** A scan that starts at an opening bracket reads the element behind it. */
  lemma ScanOpened(after: string, name: string)
    requires Named(name) && FindNameEnd(after) == Some(|name|) && after[..|name|] == name
    ensures Scan("<" + after) == ElementOf(after, |name|)
  {
    FindAfter("", "<", after);
    assert "" + "<" + after == "<" + after;
    assert ("<" + after)[1..] == after;
  }

  lemma ScanRendered(cue: Cue, rest: string)
    requires CueValid(cue)
    ensures Scan(CueText(cue) + rest) == Element(AttributesText(TimeAttributes(cue.times)), Escape(cue.text), rest)
  {
    var attributes := AttributesText(TimeAttributes(cue.times));
    TimesText(cue.times);
    EscapeLacks(cue.text);
    ScanElement(cue.name, attributes, Escape(cue.text), rest);
    TagReassociated(cue.name, attributes, Escape(cue.text), Closing(cue.name), rest);
  }

  lemma TagReassociated(name: string, attributes: string, body: string, closing: string, rest: string)
    ensures "<" + (name + attributes + ">" + (body + closing)) + rest == "<" + (name + attributes + ">" + (body + closing + rest))
  {
    var head := name + attributes + ">";
    assert head + (body + closing) + rest == head + (body + closing + rest);
  }

  /** A cue is collected when there is room for it, and otherwise ends the payload as a resource limit. */
  lemma CueRead(lib: Library, cue: Cue, rest: string, segments: seq<Segment>, limits: Limits)
    requires CueValid(cue) && Meant(lib, cue.times).Some?
    ensures Segments(lib, CueText(cue) + rest, segments, limits)
            == if |cue.text| <= limits.maxSegmentCharacters && |segments| < limits.maxSegments
               then Segments(lib, rest, segments + [SegmentOf(lib, cue)], limits) else Err(ResourceLimit)
  {
    ScanRendered(cue, rest);
    TimesRead(lib, cue.times);
    DecodeInvertsEscape(cue.text);
    ElementCollected(lib, CueText(cue) + rest, AttributesText(TimeAttributes(cue.times)), Escape(cue.text), rest,
                     Meant(lib, cue.times).value, segments, limits);
  }

  lemma ElementCollected(lib: Library, cursor: string, attributes: string, raw: string, rest: string, timing: Timing,
                         segments: seq<Segment>, limits: Limits)
    requires Scan(cursor) == Element(attributes, raw, rest) && TimingOf(lib, attributes) == Ok(timing)
    ensures Segments(lib, cursor, segments, limits)
            == if |Decode(raw)| <= limits.maxSegmentCharacters && |segments| < limits.maxSegments
               then Segments(lib, rest, segments + [Segment(timing.startMs, timing.durationMs, Decode(raw))], limits)
               else Err(ResourceLimit)
  {
  }

  /** Text without an opening bracket is passed over. */
  lemma ScanPast(gap: string, rest: string)
    requires Lacks(gap, '<')
    ensures Scan(gap + rest) == Scan(rest)
  {
    FindChar(rest, '<');
    FindChar(gap + rest, '<');
    var a, b := Find(gap + rest, "<"), Find(rest, "<");
    if b.Some? {
      FindAfter(gap + rest[..b.value], "<", rest[b.value + 1..]);
      assert gap + rest == gap + rest[..b.value] + "<" + rest[b.value + 1..];
      assert (gap + rest)[|gap| + b.value + 1..] == rest[b.value + 1..];
    } else {
      assert Lacks(gap + rest, '<');
    }
  }

  lemma SegmentsPast(lib: Library, gap: string, rest: string, segments: seq<Segment>, limits: Limits)
    requires Lacks(gap, '<')
    ensures Segments(lib, gap + rest, segments, limits) == Segments(lib, rest, segments, limits)
  {
    ScanPast(gap, rest);
  }

  lemma NothingRead(lib: Library, segments: seq<Segment>, limits: Limits)
    ensures Segments(lib, "", segments, limits) == Ok(segments)
  {
    FindChar("", '<');
  }

  lemma FirstRead(lib: Library, cue: Cue, gap: string, more: string, before: seq<Segment>, limits: Limits)
    requires CueFits(lib, cue, limits) && |before| < limits.maxSegments && Lacks(gap, '<')
    ensures Segments(lib, CueText(cue) + (gap + more), before, limits) == Segments(lib, more, before + [SegmentOf(lib, cue)], limits)
  {
    CueRead(lib, cue, gap + more, before, limits);
    SegmentsPast(lib, gap, more, before + [SegmentOf(lib, cue)], limits);
  }

  lemma RenderingThen(cues: seq<Cue>, gap: string, rest: string)
    requires cues != []
    ensures Rendering(cues, gap) + rest == CueText(cues[0]) + (gap + (Rendering(cues[1..], gap) + rest))
  {
  }

  lemma SegmentsShift(lib: Library, cues: seq<Cue>, before: seq<Segment>)
    requires cues != []
    ensures before + [SegmentOf(lib, cues[0])] + SegmentsOf(lib, cues[1..]) == before + SegmentsOf(lib, cues)
  {
  }

  /** Reading a rendering appends exactly its segments, in order, and then reads on. */
  lemma {:induction false} RenderingRead(lib: Library, cues: seq<Cue>, gap: string, rest: string, before: seq<Segment>, limits: Limits)
    requires Lacks(gap, '<') && |before| + |cues| <= limits.maxSegments
    requires forall i :: 0 <= i < |cues| ==> CueFits(lib, cues[i], limits)
    ensures Segments(lib, Rendering(cues, gap) + rest, before, limits) == Segments(lib, rest, before + SegmentsOf(lib, cues), limits)
    decreases |cues|
  {
    if cues == [] {
      assert Rendering(cues, gap) + rest == rest;
      assert before + SegmentsOf(lib, cues) == before;
    } else {
      assert CueFits(lib, cues[0], limits);
      RenderingThen(cues, gap, rest);
      FirstRead(lib, cues[0], gap, Rendering(cues[1..], gap) + rest, before, limits);
      RenderingRead(lib, cues[1..], gap, rest, before + [SegmentOf(lib, cues[0])], limits);
      SegmentsShift(lib, cues, before);
    }
  }

  lemma ParsedIs(lib: Library, cues: seq<Cue>, gap: string, limits: Limits)
    requires cues != [] && Bytes(Rendering(cues, gap)) <= limits.maxTrackBytes
    ensures var segments := Segments(lib, Rendering(cues, gap), [], limits);
            Parsed(lib, Rendering(cues, gap), limits) == if segments == Ok([]) then Err(Schema) else segments
  {
    var payload := Rendering(cues, gap);
    assert payload[0] == '<';
    assert SkipWhitespace(payload) == 0;
    assert payload[0..] == payload;
  }

  /**
    Round trip: the rendering of any nonempty list of cues within the limits, with either element
    name and either form of times, parses back to exactly those segments in order.
   */
  lemma RenderingRoundTrip(lib: Library, cues: seq<Cue>, gap: string, limits: Limits)
    requires cues != [] && |cues| <= limits.maxSegments && Lacks(gap, '<')
    requires forall i :: 0 <= i < |cues| ==> CueFits(lib, cues[i], limits)
    requires Bytes(Rendering(cues, gap)) <= limits.maxTrackBytes
    ensures Parsed(lib, Rendering(cues, gap), limits) == Ok(SegmentsOf(lib, cues))
  {
    ParsedIs(lib, cues, gap, limits);
    RenderingRead(lib, cues, gap, "", [], limits);
    assert Rendering(cues, gap) + "" == Rendering(cues, gap);
    NothingRead(lib, [] + SegmentsOf(lib, cues), limits);
    assert [] + SegmentsOf(lib, cues) == SegmentsOf(lib, cues);
  }

  lemma {:induction false} RenderingSplits(a: seq<Cue>, b: seq<Cue>, gap: string)
    ensures Rendering(a + b, gap) == Rendering(a, gap) + Rendering(b, gap)
    decreases |a|
  {
    if a == [] {
      assert a + b == b;
    } else {
      assert (a + b)[1..] == a[1..] + b;
      RenderingSplits(a[1..], b, gap);
    }
  }

  lemma RefusedFirst(lib: Library, cues: seq<Cue>, gap: string, before: seq<Segment>, limits: Limits)
    requires cues != [] && CueValid(cues[0]) && Meant(lib, cues[0].times).Some?
    requires |before| >= limits.maxSegments || |cues[0].text| > limits.maxSegmentCharacters
    ensures Segments(lib, Rendering(cues, gap), before, limits) == Err(ResourceLimit)
  {
    CueRead(lib, cues[0], gap + Rendering(cues[1..], gap), before, limits);
  }

  /** One cue too many or one character too many anywhere in a rendering refuses the whole payload. */
  lemma OverLimitRefused(lib: Library, cues: seq<Cue>, over: seq<Cue>, gap: string, limits: Limits)
    requires Lacks(gap, '<') && |cues| <= limits.maxSegments && (forall i :: 0 <= i < |cues| ==> CueFits(lib, cues[i], limits))
    requires over != [] && CueValid(over[0]) && Meant(lib, over[0].times).Some?
    requires |cues| == limits.maxSegments || |over[0].text| > limits.maxSegmentCharacters
    requires Bytes(Rendering(cues + over, gap)) <= limits.maxTrackBytes
    ensures Parsed(lib, Rendering(cues + over, gap), limits) == Err(ResourceLimit)
  {
    ParsedIs(lib, cues + over, gap, limits);
    RenderingSplits(cues, over, gap);
    RenderingRead(lib, cues, gap, Rendering(over, gap), [], limits);
    RefusedFirst(lib, over, gap, [] + SegmentsOf(lib, cues), limits);
  }

  /** The opening tag of a cue and text that never closes it. */
  function Unclosed(cue: Cue, body: string): string {
    "<" + (cue.name + AttributesText(TimeAttributes(cue.times)) + ">" + body)
  }

  lemma UnclosedScanned(cue: Cue, body: string)
    requires CueValid(cue) && Lacks(body, '<')
    ensures Scan(Unclosed(cue, body)).Malformed?
  {
    var name, attributes := cue.name, AttributesText(TimeAttributes(cue.times));
    TimesText(cue.times);
    NameLacks(name);
    TagSplits(name, attributes, body);
    TagNamed(name, attributes, body);
    ScanOpened(name + attributes + ">" + body, name);
    NotClosed(body, name);
  }

  lemma NotClosed(body: string, name: string)
    requires Lacks(body, '<')
    ensures Find(body, Closing(name)).None?
  {
    var closing := Closing(name);
    forall i: nat ensures !OccursAt(body, closing, i) {
      assert i + |closing| <= |body| ==> body[i..i + |closing|][0] == body[i];
    }
  }

  /** A payload that ends inside an element is refused as a whole, whatever came before it. */
  lemma TruncatedRefused(lib: Library, cues: seq<Cue>, last: Cue, body: string, gap: string, limits: Limits)
    requires Lacks(gap, '<') && |cues| <= limits.maxSegments && (forall i :: 0 <= i < |cues| ==> CueFits(lib, cues[i], limits))
    requires CueValid(last) && Lacks(body, '<')
    ensures Segments(lib, Rendering(cues, gap) + Unclosed(last, body), [], limits) == Err(Schema)
  {
    RenderingRead(lib, cues, gap, Unclosed(last, body), [], limits);
    UnclosedScanned(last, body);
  }
}
