/**
  Locating the player response inside a watch page: the scan that balances braces outside strings,
  and why it returns exactly the JSON object that a page assigns to its marker.
 */
module Player {
  import opened Wrappers
  import opened Text

  const MARKER := "ytInitialPlayerResponse"

  datatype YoutubeError = ResourceLimit | Schema

  // ----- the scan

  datatype Scan = Scan(depth: nat, inString: bool, escaped: bool)

  const START := Scan(0, false, false)

  datatype Step = Continue(scan: Scan) | Closed | Unbalanced

  function Advance(s: Scan, c: char): Step {
    if s.inString then
      if s.escaped then Continue(s.(escaped := false))
      else if c == '\\' then Continue(s.(escaped := true))
      else if c == '"' then Continue(s.(inString := false))
      else Continue(s)
    else if c == '"' then Continue(s.(inString := true))
    else if c == '{' then Continue(s.(depth := s.depth + 1))
    else if c == '}' then
      if s.depth == 0 then Unbalanced
      else if s.depth == 1 then Closed
      else Continue(s.(depth := s.depth - 1))
    else Continue(s)
  }

  /** The state after a text that neither closes nor unbalances the scan. */
  function Through(s: Scan, text: string): Option<Scan> {
    if text == [] then Some(s)
    else
      match Through(s, text[..|text| - 1])
      case None => None
      case Some(before) =>
        match Advance(before, text[|text| - 1])
        case Continue(after) => Some(after)
        case _ => None
  }

  /** The length of the prefix that the scan from the start closes on. */
  ghost predicate ClosesAt(text: string, n: nat) {
    && 0 < n <= |text|
    && Through(START, text[..n - 1]).Some?
    && Advance(Through(START, text[..n - 1]).value, text[n - 1]).Closed?
  }

  lemma {:induction false} ThroughStaysNone(s: Scan, text: string, i: nat)
    requires i <= |text| && Through(s, text[..i]).None?
    ensures Through(s, text).None?
    decreases |text|
  {
    if i == |text| {
      assert text[..i] == text;
    } else {
      assert text[..|text| - 1][..i] == text[..i];
      ThroughStaysNone(s, text[..|text| - 1], i);
    }
  }

  /** A text whose scan stopped at its character `i` is never passed through again. */
  lemma StoppedForGood(text: string, i: nat)
    requires i < |text| && Through(START, text[..i]).Some? && !Advance(Through(START, text[..i]).value, text[i]).Continue?
    ensures forall n :: n > i + 1 ==> !ClosesAt(text, n)
  {
    assert text[..i + 1][..i] == text[..i];
    forall n | i + 1 < n <= |text| ensures !ClosesAt(text, n) {
      assert text[..n - 1][..i + 1] == text[..i + 1];
      ThroughStaysNone(START, text[..n - 1], i + 1);
    }
  }

  lemma ClosesOnce(text: string, n: nat)
    requires ClosesAt(text, n)
    ensures forall m :: ClosesAt(text, m) ==> m == n
  {
    StoppedForGood(text, n - 1);
    forall m: nat | ClosesAt(text, m) ensures m == n {
      StoppedForGood(text, m - 1);
    }
  }

  /**
    `balanced_object_text`: answers the prefix the scan closes on, exactly when it closes and the
    characters counted up to there stay within the cap.
   */
  method BalancedObjectText(tail: string, scannedBefore: nat, maxPageBytes: nat) returns (r: Result<string, YoutubeError>)
    ensures r.Ok? <==> exists n :: ClosesAt(tail, n) && scannedBefore + n <= maxPageBytes
    ensures r.Ok? ==> ClosesAt(tail, |r.value|) && r.value == tail[..|r.value|]
    ensures r.Err? ==> r.error == Schema
  {
    var depth, inString, escaped, scanned := 0, false, false, scannedBefore;
    for i := 0 to |tail|
      invariant depth >= 0 && Through(START, tail[..i]) == Some(Scan(depth, inString, escaped))
      invariant scanned == scannedBefore + i
      invariant i > 0 ==> scanned <= maxPageBytes
      invariant forall n :: 0 < n <= i ==> !ClosesAt(tail, n)
    {
      var c := tail[i];
      assert tail[..i + 1][..i] == tail[..i];
      scanned := scanned + 1;
      if scanned > maxPageBytes {
        return Err(Schema);
      }
      if inString {
        if escaped {
          escaped := false;
        } else if c == '\\' {
          escaped := true;
        } else if c == '"' {
          inString := false;
        }
        continue;
      }
      if c == '"' {
        inString := true;
      } else if c == '{' {
        depth := depth + 1;
      } else if c == '}' {
        if depth == 0 {
          StoppedForGood(tail, i);
          return Err(Schema);
        }
        depth := depth - 1;
        if depth == 0 {
          assert ClosesAt(tail, i + 1);
          return Ok(tail[..i + 1]);
        }
      }
    }
    return Err(Schema);
  }

  // ----- JSON texts (sections 2 to 7 of RFC 8259)

  datatype Item = Plain(c: char) | Escape(c: char) | Unicode(hex: string)

  datatype Json =
    | Scalar(text: string)
    | Str(items: seq<Item>)
    | Array(open: string, elements: Elements)
    | Object(open: string, members: Members)

  datatype Elements = NoElements | Element(before: string, value: Json, after: string, more: Elements)

  datatype Members = NoMembers
                   | Member(ws0: string, name: seq<Item>, ws1: string, ws2: string, value: Json, ws3: string, more: Members)

  predicate IsWs(s: string) { forall i :: 0 <= i < |s| ==> s[i] in " \t\n\r" }

  predicate IsHexDigit(c: char) { '0' <= c <= '9' || 'a' <= c <= 'f' || 'A' <= c <= 'F' }

  predicate ItemValid(i: Item) {
    match i
    case Plain(c) => c >= ' ' && c != '"' && c != '\\'
    case Escape(c) => c in "\"\\/bfnrt"
    case Unicode(hex) => |hex| == 4 && forall k :: 0 <= k < 4 ==> IsHexDigit(hex[k])
  }

  predicate ItemsValid(items: seq<Item>) { forall k :: 0 <= k < |items| ==> ItemValid(items[k]) }

  /** A superset of the literal names and of the numbers of section 6. */
  predicate ScalarValid(text: string) {
    text == "true" || text == "false" || text == "null" || forall k :: 0 <= k < |text| ==> text[k] in "0123456789+-.eE"
  }

  predicate Valid(v: Json) {
    match v
    case Scalar(text) => ScalarValid(text)
    case Str(items) => ItemsValid(items)
    case Array(open, elements) => IsWs(open) && ElementsValid(elements)
    case Object(open, members) => IsWs(open) && MembersValid(members)
  }

  predicate ElementsValid(e: Elements) {
    match e
    case NoElements => true
    case Element(before, value, after, more) => IsWs(before) && Valid(value) && IsWs(after) && ElementsValid(more)
  }

  predicate MembersValid(m: Members) {
    match m
    case NoMembers => true
    case Member(ws0, name, ws1, ws2, value, ws3, more) =>
      IsWs(ws0) && ItemsValid(name) && IsWs(ws1) && IsWs(ws2) && Valid(value) && IsWs(ws3) && MembersValid(more)
  }

  function ItemText(i: Item): string {
    match i
    case Plain(c) => [c]
    case Escape(c) => ['\\', c]
    case Unicode(hex) => ['\\', 'u'] + hex
  }

  function ItemsText(items: seq<Item>): string {
    if items == [] then "" else ItemsText(items[..|items| - 1]) + ItemText(items[|items| - 1])
  }

  function Quoted(items: seq<Item>): string { "\"" + ItemsText(items) + "\"" }

  function TextOf(v: Json): string {
    match v
    case Scalar(text) => text
    case Str(items) => Quoted(items)
    case Array(open, elements) => "[" + (open + ElementsText(elements)) + "]"
    case Object(open, members) => "{" + (open + MembersText(members)) + "}"
  }

  function ElementsText(e: Elements): string {
    match e
    case NoElements => ""
    case Element(before, value, after, more) =>
      before + TextOf(value) + after + (if more.NoElements? then "" else "," + ElementsText(more))
  }

  function NameText(ws0: string, name: seq<Item>, ws1: string): string { ws0 + Quoted(name) + ws1 + ":" }

  function MembersText(m: Members): string {
    match m
    case NoMembers => ""
    case Member(ws0, name, ws1, ws2, value, ws3, more) =>
      NameText(ws0, name, ws1) + (ws2 + TextOf(value) + ws3 + (if more.NoMembers? then "" else "," + MembersText(more)))
  }

  // ----- the scan passes over every value it is inside of

  lemma {:induction false} ThroughConcat(s: Scan, a: string, b: string)
    requires Through(s, a).Some?
    ensures Through(s, a + b) == Through(Through(s, a).value, b)
    decreases |b|
  {
    if b == [] {
      assert a + b == a;
    } else {
      assert (a + b)[..|a + b| - 1] == a + b[..|b| - 1];
      ThroughConcat(s, a, b[..|b| - 1]);
    }
  }

  lemma ThroughOne(s: Scan, c: char)
    ensures Through(s, [c]) == if Advance(s, c).Continue? then Some(Advance(s, c).scan) else None
  {
    assert [c][..0] == [];
  }

  predicate Inert(c: char) { c != '"' && c != '{' && c != '}' }

  /** Outside a string, text without quotes and braces leaves the scan where it is. */
  lemma {:induction false} ThroughInert(s: Scan, text: string)
    requires !s.inString && forall i :: 0 <= i < |text| ==> Inert(text[i])
    ensures Through(s, text) == Some(s)
  {
    if text != [] { ThroughInert(s, text[..|text| - 1]); }
  }

  lemma {:induction false} ThroughHex(s: Scan, text: string)
    requires s.inString && !s.escaped && forall i :: 0 <= i < |text| ==> IsHexDigit(text[i])
    ensures Through(s, text) == Some(s)
  {
    if text != [] { ThroughHex(s, text[..|text| - 1]); }
  }

  lemma ThroughItem(s: Scan, i: Item)
    requires s.inString && !s.escaped && ItemValid(i)
    ensures Through(s, ItemText(i)) == Some(s)
  {
    match i
    case Plain(c) => ThroughOne(s, c);
    case Escape(c) =>
      assert ['\\', c][..1] == ['\\'];
      ThroughOne(s, '\\');
    case Unicode(hex) =>
      assert ['\\', 'u'][..1] == ['\\'];
      ThroughOne(s, '\\');
      ThroughConcat(s, ['\\', 'u'], hex);
      ThroughHex(s, hex);
  }

  lemma {:induction false} ThroughItems(s: Scan, items: seq<Item>)
    requires s.inString && !s.escaped && ItemsValid(items)
    ensures Through(s, ItemsText(items)) == Some(s)
  {
    if items != [] {
      var init := items[..|items| - 1];
      ThroughItems(s, init);
      ThroughConcat(s, ItemsText(init), ItemText(items[|items| - 1]));
      ThroughItem(s, items[|items| - 1]);
    }
  }

  predicate Outside(s: Scan) { !s.inString && !s.escaped }

  /** A pass that ends where it began can be put in front of any other. */
  lemma Passes(s: Scan, a: string, b: string)
    requires Through(s, a) == Some(s) && Through(s, b) == Some(s)
    ensures Through(s, a + b) == Some(s)
  {
    ThroughConcat(s, a, b);
  }

  lemma ThroughQuoted(s: Scan, items: seq<Item>)
    requires Outside(s) && ItemsValid(items)
    ensures Through(s, Quoted(items)) == Some(s)
  {
    var inner := s.(inString := true);
    ThroughOne(s, '"');
    ThroughItems(inner, items);
    ThroughConcat(s, "\"", ItemsText(items));
    ThroughOne(inner, '"');
    ThroughConcat(s, "\"" + ItemsText(items), "\"");
  }

  lemma ThroughWs(s: Scan, ws: string)
    requires Outside(s) && IsWs(ws)
    ensures Through(s, ws) == Some(s)
  {
    ThroughInert(s, ws);
  }

  lemma ThroughBracketed(s: Scan, body: string)
    requires Outside(s) && Through(s, body) == Some(s)
    ensures Through(s, "[" + body + "]") == Some(s)
  {
    ThroughOne(s, '[');
    ThroughOne(s, ']');
    Passes(s, "[", body);
    Passes(s, "[" + body, "]");
  }

  /** Inside an object, a nested object raises the depth and brings it back. */
  lemma ThroughBraced(s: Scan, body: string)
    requires Outside(s) && s.depth >= 1
    requires Through(s.(depth := s.depth + 1), body) == Some(s.(depth := s.depth + 1))
    ensures Through(s, "{" + body + "}") == Some(s)
  {
    var inner := s.(depth := s.depth + 1);
    ThroughOne(s, '{');
    ThroughConcat(s, "{", body);
    ThroughOne(inner, '}');
    ThroughConcat(s, "{" + body, "}");
  }

  lemma ScalarInert(text: string)
    requires ScalarValid(text)
    ensures forall i :: 0 <= i < |text| ==> Inert(text[i])
  {
  }

  lemma OpenedBy(s: Scan, open: string, body: string)
    requires Outside(s) && IsWs(open) && Through(s, body) == Some(s)
    ensures Through(s, open + body) == Some(s)
  {
    ThroughWs(s, open);
    Passes(s, open, body);
  }

  lemma {:induction false} ThroughValue(s: Scan, v: Json)
    requires Outside(s) && s.depth >= 1 && Valid(v)
    ensures Through(s, TextOf(v)) == Some(s)
    decreases v
  {
    match v
    case Scalar(text) =>
      ScalarInert(text);
      ThroughInert(s, text);
    case Str(items) => ThroughQuoted(s, items);
    case Array(open, elements) =>
      ThroughElements(s, elements);
      OpenedBy(s, open, ElementsText(elements));
      ThroughBracketed(s, open + ElementsText(elements));
    case Object(open, members) =>
      ThroughMembers(s.(depth := s.depth + 1), members);
      OpenedBy(s.(depth := s.depth + 1), open, MembersText(members));
      ThroughBraced(s, open + MembersText(members));
  }

  lemma {:induction false} ThroughElements(s: Scan, e: Elements)
    requires Outside(s) && s.depth >= 1 && ElementsValid(e)
    ensures Through(s, ElementsText(e)) == Some(s)
    decreases e
  {
    if e.Element? {
      ThroughWs(s, e.before);
      ThroughValue(s, e.value);
      ThroughWs(s, e.after);
      ThroughElements(s, e.more);
      ThroughMore(s, e.more.NoElements?, ElementsText(e.more));
      PassesFour(s, e.before, TextOf(e.value), e.after, if e.more.NoElements? then "" else "," + ElementsText(e.more));
    }
  }

  lemma ThroughMore(s: Scan, last: bool, more: string)
    requires Outside(s) && Through(s, more) == Some(s)
    ensures Through(s, if last then "" else "," + more) == Some(s)
  {
    ThroughOne(s, ',');
    Passes(s, ",", more);
  }

  lemma PassesFour(s: Scan, a: string, b: string, c: string, d: string)
    requires Through(s, a) == Some(s) && Through(s, b) == Some(s) && Through(s, c) == Some(s) && Through(s, d) == Some(s)
    ensures Through(s, a + b + c + d) == Some(s)
  {
    Passes(s, a, b);
    Passes(s, a + b, c);
    Passes(s, a + b + c, d);
  }

  lemma ThroughName(s: Scan, ws0: string, name: seq<Item>, ws1: string)
    requires Outside(s) && IsWs(ws0) && ItemsValid(name) && IsWs(ws1)
    ensures Through(s, NameText(ws0, name, ws1)) == Some(s)
  {
    ThroughWs(s, ws0);
    ThroughQuoted(s, name);
    ThroughWs(s, ws1);
    ThroughOne(s, ':');
    PassesFour(s, ws0, Quoted(name), ws1, ":");
  }

  lemma {:induction false} ThroughMembers(s: Scan, m: Members)
    requires Outside(s) && s.depth >= 1 && MembersValid(m)
    ensures Through(s, MembersText(m)) == Some(s)
    decreases m
  {
    if m.Member? {
      var more := if m.more.NoMembers? then "" else "," + MembersText(m.more);
      ThroughWs(s, m.ws2);
      ThroughValue(s, m.value);
      ThroughWs(s, m.ws3);
      ThroughMembers(s, m.more);
      ThroughMore(s, m.more.NoMembers?, MembersText(m.more));
      PassesFour(s, m.ws2, TextOf(m.value), m.ws3, more);
      ThroughName(s, m.ws0, m.name, m.ws1);
      Passes(s, NameText(m.ws0, m.name, m.ws1), m.ws2 + TextOf(m.value) + m.ws3 + more);
    }
  }

  lemma ClosesAfter(text: string, suffix: string)
    requires Through(START, text) == Some(Scan(1, false, false))
    ensures ClosesAt(text + "}" + suffix, |text| + 1)
  {
    assert (text + "}" + suffix)[..|text|] == text;
  }

  /** The scan of an opened object's content leaves it just before its closing brace. */
  lemma ThroughOpened(ws: string, body: string)
    requires IsWs(ws) && Through(Scan(1, false, false), body) == Some(Scan(1, false, false))
    ensures Through(START, ws + "{" + body) == Some(Scan(1, false, false))
  {
    ThroughWs(START, ws);
    ThroughOne(START, '{');
    ThroughConcat(START, ws, "{");
    ThroughConcat(START, ws + "{", body);
  }

  lemma BracedCloses(ws: string, body: string, suffix: string)
    requires Through(START, ws + "{" + body) == Some(Scan(1, false, false))
    ensures ClosesAt(ws + ("{" + body + "}") + suffix, |ws + ("{" + body + "}")|)
  {
    ClosesAfter(ws + "{" + body, suffix);
    assert ws + ("{" + body + "}") + suffix == ws + "{" + body + "}" + suffix;
  }

  /** For every object, leading white space and suffix, the scan closes on the object's own end. */
  lemma ObjectCloses(ws: string, v: Json, suffix: string)
    requires IsWs(ws) && v.Object? && Valid(v)
    ensures ClosesAt(ws + TextOf(v) + suffix, |ws + TextOf(v)|)
    ensures forall n :: ClosesAt(ws + TextOf(v) + suffix, n) ==> n == |ws + TextOf(v)|
  {
    var body := v.open + MembersText(v.members);
    ThroughMembers(Scan(1, false, false), v.members);
    OpenedBy(Scan(1, false, false), v.open, MembersText(v.members));
    ThroughOpened(ws, body);
    BracedCloses(ws, body, suffix);
    ClosesOnce(ws + TextOf(v) + suffix, |ws + TextOf(v)|);
  }

  // ----- the page

  /** What follows the marker's assignment, with the characters already counted against the cap. */
  datatype Embedded = Embedded(tail: string, counted: nat)

  function EmbeddedTail(page: string): (r: Option<Embedded>)
    ensures r.Some? ==> r.value.counted + |r.value.tail| <= Bytes(page)
  {
    var found := Find(page, MARKER);
    if found.None? then None
    else
      var i := found.value;
      var after := page[i + |MARKER|..];
      var skipped := SkipWhitespace(after);
      if skipped == |after| || after[skipped] != '=' then None
      else
        CapWithinPage(page, i);
        Some(Embedded(after[skipped + 1..], Bytes(page[..i]) + |MARKER|))
  }

  /** Every character after the marker's start was paid for by a byte of the page. */
  lemma CapWithinPage(page: string, i: nat)
    requires i <= |page|
    ensures Bytes(page[..i]) + |page[i..]| <= Bytes(page)
  {
    assert page == page[..i] + page[i..];
    BytesConcat(page[..i], page[i..]);
    BytesAtLeastChars(page[i..]);
  }

  /**
    The bounded payload of a page: the byte budget is the only limit, because the character cap
    never rejects a page within it.
   */
  method PlayerPayload(page: string, maxPageBytes: nat) returns (r: Result<string, YoutubeError>)
    ensures r == Err(ResourceLimit) <==> Bytes(page) > maxPageBytes
    ensures Bytes(page) <= maxPageBytes ==>
              (r.Ok? <==> EmbeddedTail(page).Some? && exists n: nat :: ClosesAt(EmbeddedTail(page).value.tail, n))
    ensures r.Ok? ==> EmbeddedTail(page).Some? && ClosesAt(EmbeddedTail(page).value.tail, |r.value|)
                      && r.value == EmbeddedTail(page).value.tail[..|r.value|]
  {
    if Bytes(page) > maxPageBytes {
      return Err(ResourceLimit);
    }
    var embedded := EmbeddedTail(page);
    if embedded.None? {
      return Err(Schema);
    }
    r := BalancedObjectText(embedded.value.tail, embedded.value.counted, maxPageBytes);
  }

  /** A page that assigns `rest` to a marker standing right after `prefix`. */
  function Assigning(prefix: string, gap: string, rest: string): string { prefix + MARKER + gap + "=" + rest }

  lemma AssignmentFound(prefix: string, gap: string, rest: string)
    requires WhitespaceUntil(gap, |gap|)
    requires forall j :: 0 <= j < |prefix| ==> !OccursAt(Assigning(prefix, gap, rest), MARKER, j)
    ensures var e := EmbeddedTail(Assigning(prefix, gap, rest)); e.Some? && e.value.tail == rest
  {
    var page := Assigning(prefix, gap, rest);
    FindIs(page, MARKER, |prefix|);
    var after := page[|prefix| + |MARKER|..];
    assert after == gap + "=" + rest;
    assert forall i :: 0 <= i < |gap| ==> after[i] == gap[i];
    assert after[|gap|] == '=';
    assert SkipWhitespace(after) == |gap|;
  }

  /** The scan of the page's assignment closes on `found` and nowhere else. */
  ghost predicate Holds(page: string, found: string) {
    && EmbeddedTail(page).Some?
    && ClosesAt(EmbeddedTail(page).value.tail, |found|)
    && (forall n: nat :: ClosesAt(EmbeddedTail(page).value.tail, n) ==> n == |found|)
    && EmbeddedTail(page).value.tail[..|found|] == found
  }

  /** The same page, with an object and a suffix for the text. */
  lemma ObjectAssigned(prefix: string, gap: string, ws: string, v: Json, suffix: string)
    requires WhitespaceUntil(gap, |gap|) && IsWs(ws) && v.Object? && Valid(v)
    requires forall j :: 0 <= j < |prefix| ==> !OccursAt(Assigning(prefix, gap, ws + TextOf(v) + suffix), MARKER, j)
    ensures Holds(Assigning(prefix, gap, ws + TextOf(v) + suffix), ws + TextOf(v))
  {
    AssignmentFound(prefix, gap, ws + TextOf(v) + suffix);
    ObjectCloses(ws, v, suffix);
  }

  method HeldIsExtracted(page: string, ghost found: string, maxPageBytes: nat) returns (r: Result<string, YoutubeError>)
    requires Holds(page, found) && Bytes(page) <= maxPageBytes
    ensures r == Ok(found)
  {
    r := PlayerPayload(page, maxPageBytes);
  }

  /**
    A page within its byte budget that assigns any JSON object to its first marker yields exactly
    that object, whatever stands before the marker and after the object.
   */
  method ObjectIsExtracted(prefix: string, gap: string, ws: string, v: Json, suffix: string, maxPageBytes: nat)
    returns (r: Result<string, YoutubeError>)
    requires WhitespaceUntil(gap, |gap|) && IsWs(ws) && v.Object? && Valid(v)
    requires Bytes(Assigning(prefix, gap, ws + TextOf(v) + suffix)) <= maxPageBytes
    requires forall j :: 0 <= j < |prefix| ==> !OccursAt(Assigning(prefix, gap, ws + TextOf(v) + suffix), MARKER, j)
    ensures r == Ok(ws + TextOf(v))
  {
    var page := Assigning(prefix, gap, ws + TextOf(v) + suffix);
    ObjectAssigned(prefix, gap, ws, v, suffix);
    r := HeldIsExtracted(page, ws + TextOf(v), maxPageBytes);
  }
}
