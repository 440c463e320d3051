/**
 The attribute filter of the product catalog and the flat string that carries it in the URL,
 such as "weight:200,1;color:Red".
 */
module AttributeFilter {
  import opened Text

  /** A PHP array from attribute code to selected values: entries in insertion order, codes distinct. */
  datatype Entry = Entry(code: string, values: seq<string>)

  type Attr = seq<Entry>

  predicate Distinct(attr: Attr) {
    forall i, j :: 0 <= i < j < |attr| ==> attr[i].code != attr[j].code
  }

  // Strings

  function Find(s: string, c: char): (i: nat)
    ensures i <= |s| && c !in s[..i] && (i < |s| ==> s[i] == c)
  {
    if s == "" || s[0] == c then 0
    else
      var i := 1 + Find(s[1..], c);
      assert s[..i] == [s[0]] + s[1..][..i - 1];
      i
  }

  /** explode */
  function Split(s: string, d: char): (parts: seq<string>)
    ensures parts != []
    decreases s
  {
    var i := Find(s, d);
    if i == |s| then [s] else [s[..i]] + Split(s[i + 1..], d)
  }

  /** implode */
  function Join(parts: seq<string>, d: char): string {
    if parts == [] then "" else if |parts| == 1 then parts[0] else parts[0] + [d] + Join(parts[1..], d)
  }

  // The parser

  function Kept(parts: seq<string>): seq<string> {
    if parts == [] then []
    else (if Trim(parts[0]) == "" then [] else [Trim(parts[0])]) + Kept(parts[1..])
  }

  /** The position of a code, |attr| when it is not set. */
  function At(attr: Attr, code: string): (i: nat)
    ensures i <= |attr| && (i < |attr| ==> attr[i].code == code)
    ensures forall j :: 0 <= j < i ==> attr[j].code != code
  {
    if attr == [] || attr[0].code == code then 0 else 1 + At(attr[1..], code)
  }

  /** Assigning to a key that is set keeps its position. */
  function Put(attr: Attr, code: string, values: seq<string>): Attr {
    var i := At(attr, code);
    if i < |attr| then attr[i := Entry(code, values)] else attr + [Entry(code, values)]
  }

  function Absorb(attr: Attr, segment: string): Attr {
    var s := Trim(segment);
    var i := Find(s, ':');
    if i == |s| then attr else Put(attr, Trim(s[..i]), Kept(Split(s[i + 1..], ',')))
  }

  function AbsorbAll(attr: Attr, segments: seq<string>): Attr
    decreases segments
  {
    if segments == [] then attr else AbsorbAll(Absorb(attr, segments[0]), segments[1..])
  }

  function Parse(filter: string): Attr {
    if filter == "" then [] else AbsorbAll([], Split(filter, ';'))
  }

  // The printer

  function Segment(e: Entry): string {
    e.code + ":" + Join(e.values, ',')
  }

  function Segments(attr: Attr): seq<string> {
    if attr == [] then []
    else (if attr[0].values == [] then [] else [Segment(attr[0])]) + Segments(attr[1..])
  }

  function Print(attr: Attr): string {
    Join(Segments(attr), ';')
  }

  // Toggling

  function ValuesOf(attr: Attr, code: string): seq<string> {
    if At(attr, code) < |attr| then attr[At(attr, code)].values else []
  }

  /** array_search: the first position of a value, |values| when it is not there. */
  function Search(values: seq<string>, value: string): (i: nat)
    ensures i <= |values| && value !in values[..i] && (i < |values| ==> values[i] == value)
  {
    if values == [] || values[0] == value then 0
    else
      var i := 1 + Search(values[1..], value);
      assert values[..i] == [values[0]] + values[1..][..i - 1];
      i
  }

  function Unset(attr: Attr, code: string): Attr {
    var i := At(attr, code);
    if i < |attr| then attr[..i] + attr[i + 1..] else attr
  }

  /** The values left after a toggle. */
  function Changed(current: seq<string>, value: string): (changed: seq<string>)
    ensures forall v :: v in changed ==> v in current || v == value
  {
    var i := Search(current, value);
    if i < |current| then current[..i] + current[i + 1..] else current + [value]
  }

  function Toggle(attr: Attr, code: string, value: string): Attr {
    var changed := Changed(ValuesOf(attr, code), value);
    if changed == [] then Unset(attr, code) else Put(attr, code, changed)
  }

  // What survives the trip through the URL

  predicate CleanCode(code: string) {
    Trim(code) == code && ':' !in code && ';' !in code
  }

  predicate CleanValue(value: string) {
    value != "" && Trim(value) == value && ',' !in value && ';' !in value
  }

  predicate TidyEntry(e: Entry) {
    CleanCode(e.code) && forall v :: v in e.values ==> CleanValue(v)
  }

  /** What the parser produces: tidy entries, possibly without values. */
  predicate Tidy(attr: Attr) {
    Distinct(attr) && forall e :: e in attr ==> TidyEntry(e)
  }

  predicate Clean(attr: Attr) {
    Tidy(attr) && forall e :: e in attr ==> e.values != []
  }

  function Pruned(attr: Attr): Attr {
    if attr == [] then [] else (if attr[0].values == [] then [] else [attr[0]]) + Pruned(attr[1..])
  }

  // Splitting undoes joining

  lemma {:induction false} FindFirst(s: string, c: char, i: nat)
    requires i < |s| && s[i] == c && c !in s[..i]
    ensures Find(s, c) == i
  {
    if i > 0 {
      assert s[0] == s[..i][0] && s[1..][..i - 1] == s[..i][1..];
      FindFirst(s[1..], c, i - 1);
    }
  }

  lemma {:induction false} SplitJoin(parts: seq<string>, d: char)
    requires parts != [] && forall p :: p in parts ==> d !in p
    ensures Split(Join(parts, d), d) == parts
  {
    var s := Join(parts, d);
    if |parts| > 1 {
      var i := |parts[0]|;
      assert parts[0] in parts && s[..i] == parts[0];
      FindFirst(s, d, i);
      assert s[i + 1..] == Join(parts[1..], d);
      SplitJoin(parts[1..], d);
    } else {
      assert parts[0] in parts && parts == [s];
    }
  }

  lemma {:induction false} SplitParts(s: string, d: char)
    ensures forall p, c :: p in Split(s, d) && c in p ==> c in s && c != d
    decreases s
  {
    var i := Find(s, d);
    if i < |s| {
      SplitParts(s[i + 1..], d);
    }
  }

  // Printing, then parsing

  lemma {:induction false} JoinEnds(parts: seq<string>, d: char)
    requires parts != [] && forall i :: 0 <= i < |parts| ==> parts[i] != ""
    ensures var s := Join(parts, d);
            s != "" && s[|s| - 1] == parts[|parts| - 1][|parts[|parts| - 1]| - 1]
  {
    if |parts| > 1 {
      JoinEnds(parts[1..], d);
    }
  }

  lemma {:induction false} JoinChars(parts: seq<string>, d: char, c: char)
    requires c != d && forall p :: p in parts ==> c !in p
    ensures c !in Join(parts, d)
  {
    if |parts| > 1 {
      assert parts[0] in parts;
      JoinChars(parts[1..], d, c);
    }
  }

  lemma {:induction false} KeptAll(values: seq<string>)
    requires forall v :: v in values ==> CleanValue(v)
    ensures Kept(values) == values
  {
    if values != [] {
      assert values[0] in values;
      KeptAll(values[1..]);
    }
  }

  /** A printed segment starts and ends with what cannot be trimmed away. */
  lemma SegmentTrimmed(e: Entry)
    requires TidyEntry(e) && e.values != []
    ensures Trim(Segment(e)) == Segment(e) && ';' !in Segment(e)
  {
    var s, tail, last := Segment(e), Join(e.values, ','), e.values[|e.values| - 1];
    forall i | 0 <= i < |e.values| ensures e.values[i] != "" {
      assert CleanValue(e.values[i]);
    }
    JoinEnds(e.values, ',');
    JoinChars(e.values, ',', ';');
    assert CleanValue(last);
    TrimmedIff(last);
    TrimmedIff(e.code);
    assert s[0] == if e.code == "" then ':' else e.code[0];
    assert s[|s| - 1] == tail[|tail| - 1];
    TrimmedIff(s);
  }

  /** One printed entry is one segment, read back as that entry. */
  lemma SegmentRead(attr: Attr, e: Entry)
    requires TidyEntry(e) && e.values != []
    ensures ';' !in Segment(e) && Absorb(attr, Segment(e)) == Put(attr, e.code, e.values)
  {
    var s, tail := Segment(e), Join(e.values, ',');
    SegmentTrimmed(e);
    assert s[..|e.code|] == e.code && s[|e.code| + 1..] == tail && s[|e.code|] == ':';
    FindFirst(s, ':', |e.code|);
    SplitJoin(e.values, ',');
    KeptAll(e.values);
  }

  lemma {:induction false} SegmentsWhole(attr: Attr)
    requires Clean(attr)
    ensures forall s :: s in Segments(attr) ==> ';' !in s
  {
    if attr != [] {
      SegmentTrimmed(attr[0]);
      SegmentsWhole(attr[1..]);
    }
  }

  predicate Apart(done: Attr, rest: Attr) {
    forall i, j :: 0 <= i < |done| && 0 <= j < |rest| ==> done[i].code != rest[j].code
  }

  /** The printed entries are read back behind those read already. */
  predicate ReadBack(done: Attr, rest: Attr) {
    AbsorbAll(done, Segments(rest)) == done + rest
  }

  /** Absorbing the first printed segment appends the first entry. */
  lemma FirstAbsorbed(done: Attr, rest: Attr)
    requires rest != [] && TidyEntry(rest[0]) && rest[0].values != [] && At(done, rest[0].code) == |done|
    ensures Segments(rest) == [Segment(rest[0])] + Segments(rest[1..])
    ensures Absorb(done, Segment(rest[0])) == done + [rest[0]]
  {
    SegmentRead(done, rest[0]);
  }

  lemma FirstRead(done: Attr, rest: Attr)
    requires Clean(rest) && rest != [] && Apart(done, rest)
    ensures Clean(rest[1..]) && Apart(done + [rest[0]], rest[1..])
    ensures ReadBack(done + [rest[0]], rest[1..]) ==> ReadBack(done, rest)
  {
    FirstAbsorbed(done, rest);
    assert Segments(rest)[1..] == Segments(rest[1..]);
    assert done + [rest[0]] + rest[1..] == done + rest;
  }

  lemma {:induction false} SegmentsRead(done: Attr, rest: Attr)
    requires Clean(rest) && Apart(done, rest)
    ensures ReadBack(done, rest)
    decreases |rest|
  {
    if rest == [] {
      assert done + rest == done;
    } else {
      FirstRead(done, rest);
      SegmentsRead(done + [rest[0]], rest[1..]);
    }
  }

  lemma CleanSurvives(attr: Attr)
    requires Clean(attr)
    ensures Parse(Print(attr)) == attr
  {
    if attr != [] {
      SegmentsWhole(attr);
      assert Segments(attr)[0] == Segment(attr[0]);
      SplitJoin(Segments(attr), ';');
      SegmentsRead([], attr);
      assert [] + attr == attr;
      assert Print(attr) != "" by {
        assert |Segment(attr[0])| > 0;
      }
    }
  }

  // What the parser produces

  lemma {:induction false} KeptClean(parts: seq<string>)
    requires forall p :: p in parts ==> ',' !in p && ';' !in p
    ensures forall v :: v in Kept(parts) ==> CleanValue(v)
  {
    if parts != [] {
      assert parts[0] in parts;
      TrimStops(parts[0]);
      KeptClean(parts[1..]);
    }
  }

  /** What one segment contributes. */
  lemma SegmentTidy(s: string, i: nat)
    requires ';' !in s && i < |s| && ':' !in s[..i]
    ensures TidyEntry(Entry(Trim(s[..i]), Kept(Split(s[i + 1..], ','))))
  {
    TrimStops(s[..i]);
    assert forall c :: c in s[..i] ==> c in s;
    assert forall c :: c in s[i + 1..] ==> c in s;
    SplitParts(s[i + 1..], ',');
    KeptClean(Split(s[i + 1..], ','));
  }

  lemma PutTidy(attr: Attr, code: string, values: seq<string>)
    requires Tidy(attr) && TidyEntry(Entry(code, values))
    ensures Tidy(Put(attr, code, values))
  {
    var put := Put(attr, code, values);
    forall e | e in put ensures TidyEntry(e) {
      var j :| 0 <= j < |put| && put[j] == e;
      assert e != Entry(code, values) ==> attr[j] == e && e in attr;
    }
  }

  lemma PutSegmentTidy(attr: Attr, s: string, i: nat)
    requires Tidy(attr) && ';' !in s && i < |s| && ':' !in s[..i]
    ensures Tidy(Put(attr, Trim(s[..i]), Kept(Split(s[i + 1..], ','))))
  {
    SegmentTidy(s, i);
    PutTidy(attr, Trim(s[..i]), Kept(Split(s[i + 1..], ',')));
  }

  lemma AbsorbTidy(attr: Attr, segment: string)
    requires Tidy(attr) && ';' !in segment
    ensures Tidy(Absorb(attr, segment))
  {
    var s := Trim(segment);
    TrimStops(segment);
    assert ';' !in s;
    if Find(s, ':') < |s| {
      PutSegmentTidy(attr, s, Find(s, ':'));
    }
  }

  lemma {:induction false} AbsorbAllTidy(attr: Attr, segments: seq<string>)
    requires Tidy(attr) && forall s :: s in segments ==> ';' !in s
    ensures Tidy(AbsorbAll(attr, segments))
    decreases segments
  {
    if segments != [] {
      assert segments[0] in segments;
      AbsorbTidy(attr, segments[0]);
      AbsorbAllTidy(Absorb(attr, segments[0]), segments[1..]);
    }
  }

  lemma ParseTidy(filter: string)
    ensures Tidy(Parse(filter))
  {
    SplitParts(filter, ';');
    AbsorbAllTidy([], Split(filter, ';'));
  }

  // Entries without values

  lemma {:induction false} PrunedPrints(attr: Attr)
    ensures Segments(Pruned(attr)) == Segments(attr)
  {
    if attr != [] {
      PrunedPrints(attr[1..]);
      if attr[0].values != [] {
        assert Pruned(attr)[0] == attr[0] && Pruned(attr)[1..] == Pruned(attr[1..]);
        assert Segments(attr) == [Segment(attr[0])] + Segments(attr[1..]);
      } else {
        assert Pruned(attr) == Pruned(attr[1..]) && Segments(attr) == Segments(attr[1..]);
      }
    }
  }

  lemma {:induction false} SegmentsSnoc(attr: Attr, e: Entry)
    ensures Segments(attr + [e]) == Segments(attr) + (if e.values == [] then [] else [Segment(e)])
  {
    if attr != [] {
      assert (attr + [e])[1..] == attr[1..] + [e];
      SegmentsSnoc(attr[1..], e);
    }
  }

  lemma {:induction false} PrunedKeeps(attr: Attr)
    ensures forall e :: e in Pruned(attr) <==> e in attr && e.values != []
  {
    if attr != [] {
      PrunedKeeps(attr[1..]);
      assert attr == [attr[0]] + attr[1..];
    }
  }

  lemma {:induction false} PrunedDistinct(attr: Attr)
    requires Distinct(attr)
    ensures Distinct(Pruned(attr))
  {
    if attr != [] {
      PrunedDistinct(attr[1..]);
      PrunedKeeps(attr[1..]);
      if attr[0].values != [] {
        var p := Pruned(attr);
        forall i, j | 0 <= i < j < |p| ensures p[i].code != p[j].code {
          assert p[j] in attr[1..];
          if i > 0 {
            assert p[i] == Pruned(attr[1..])[i - 1] && p[j] == Pruned(attr[1..])[j - 1];
          }
        }
      }
    }
  }

  // The laws

  /** Parsing what was printed drops the codes that have no values, and nothing else. */
  lemma ParsePrintParse(filter: string)
    ensures Parse(Print(Parse(filter))) == Pruned(Parse(filter))
  {
    ParseTidy(filter);
    TidyComesBackPruned(Parse(filter));
  }

  lemma TidyComesBackPruned(attr: Attr)
    requires Tidy(attr)
    ensures Parse(Print(attr)) == Pruned(attr) && Clean(Pruned(attr))
  {
    PrunedPrints(attr);
    PrunedKeeps(attr);
    PrunedDistinct(attr);
    CleanSurvives(Pruned(attr));
  }

  /** A selection survives the trip through the URL if and only if it is clean. */
  lemma RoundTripIffClean(attr: Attr)
    ensures Parse(Print(attr)) == attr <==> Clean(attr)
  {
    if Parse(Print(attr)) == attr {
      ParseTidy(Print(attr));
      TidyComesBackPruned(attr);
      PrunedKeeps(attr);
    }
    if Clean(attr) {
      CleanSurvives(attr);
    }
  }

  /** Normalizing a filter string twice is normalizing it once. */
  lemma NormalizingIsIdempotent(filter: string)
    ensures Print(Parse(Print(Parse(filter)))) == Print(Parse(filter))
  {
    ParsePrintParse(filter);
    PrunedPrints(Parse(filter));
  }

  lemma {:induction false} SearchLast(current: seq<string>, value: string)
    requires value !in current
    ensures Search(current + [value], value) == |current|
  {
    if current != [] {
      assert (current + [value])[1..] == current[1..] + [value];
      SearchLast(current[1..], value);
    }
  }

  lemma LastRemoved(current: seq<string>, value: string)
    requires value !in current
    ensures var grown := current + [value]; grown[..|current|] + grown[|current| + 1..] == current
  {
  }

  /** Toggling an absent value appends it, toggling it again takes the last value away. */
  lemma AppendedThenRemoved(attr: Attr, code: string, value: string)
    requires value !in ValuesOf(attr, code)
    ensures var current := ValuesOf(attr, code);
            Toggle(attr, code, value) == Put(attr, code, current + [value])
    ensures var current := ValuesOf(attr, code); var once := Put(attr, code, current + [value]);
            At(once, code) == At(attr, code) && ValuesOf(once, code) == current + [value]
            && Toggle(once, code, value) == if current == [] then Unset(once, code) else Put(once, code, current)
  {
    var current := ValuesOf(attr, code);
    SearchLast(current, value);
    LastRemoved(current, value);
    PutAt(attr, code, current + [value]);
  }

  lemma PutAt(attr: Attr, code: string, values: seq<string>)
    ensures var put := Put(attr, code, values);
            At(put, code) == At(attr, code) && ValuesOf(put, code) == values
  {
  }

  /** Toggling an absent value twice restores the selection, unless its code was set to no values. */
  lemma AbsentToggledTwice(attr: Attr, code: string, value: string)
    requires value !in ValuesOf(attr, code)
    ensures Toggle(Toggle(attr, code, value), code, value) == attr
        <==> !(At(attr, code) < |attr| && ValuesOf(attr, code) == [])
  {
    var current, i := ValuesOf(attr, code), At(attr, code);
    var once := Put(attr, code, current + [value]);
    AppendedThenRemoved(attr, code, value);
    if i == |attr| {
      assert once[..i] + once[i + 1..] == attr;
    } else if current == [] {
      assert |Unset(once, code)| < |attr|;
    } else {
      assert once[i := Entry(code, current)] == attr;
    }
  }

  lemma BareCodeParsed(code: string)
    requires CleanCode(code)
    ensures Parse(code + ":") == [Entry(code, [])]
  {
    var s := code + ":";
    TrimmedIff(code);
    TrimmedIff(s);
    FindFirst(s, ':', |code|);
    assert s[..|code|] == code && s[|code| + 1..] == "";
    SplitJoin([""], ',');
    SplitJoin([s], ';');
    assert Split("", ',') == [""] && Kept([""]) == [];
    assert Absorb([], s) == Put([], code, []);
    assert AbsorbAll([], [s]) == AbsorbAll([Entry(code, [])], []);
  }

  /** A URL such as "size:" sets a code to no values, and toggling any value twice loses that code. */
  lemma EmptyCodeIsLost(code: string, value: string)
    requires CleanCode(code)
    ensures var attr := Parse(code + ":");
            attr == [Entry(code, [])] && Toggle(Toggle(attr, code, value), code, value) == []
  {
    BareCodeParsed(code);
    AppendedThenRemoved([Entry(code, [])], code, value);
  }

  /** The codes other than one, in order. */
  function Others(attr: Attr, code: string): Attr {
    if attr == [] then [] else (if attr[0].code == code then [] else [attr[0]]) + Others(attr[1..], code)
  }

  lemma {:induction false} OthersJoin(a: Attr, b: Attr, code: string)
    ensures Others(a + b, code) == Others(a, code) + Others(b, code)
  {
    if a == [] {
      assert a + b == b;
    } else {
      assert (a + b)[1..] == a[1..] + b;
      OthersJoin(a[1..], b, code);
    }
  }

  lemma ReplacedAt(attr: Attr, i: nat, put: Attr, code: string)
    requires i < |attr| && attr[i].code == code && forall e :: e in put ==> e.code == code
    requires |put| <= 1
    ensures Others(attr[..i] + put + attr[i + 1..], code) == Others(attr, code)
  {
    assert attr == attr[..i] + [attr[i]] + attr[i + 1..];
    OthersJoin(attr[..i] + [attr[i]], attr[i + 1..], code);
    OthersJoin(attr[..i], [attr[i]], code);
    OthersJoin(attr[..i] + put, attr[i + 1..], code);
    OthersJoin(attr[..i], put, code);
    assert [attr[i]][1..] == [] && put != [] ==> put[1..] == [];
  }

  lemma UnsetAt(attr: Attr, code: string)
    requires Distinct(attr)
    ensures var unset := Unset(attr, code);
            Distinct(unset) && Others(unset, code) == Others(attr, code) && At(unset, code) == |unset|
  {
    var i, unset := At(attr, code), Unset(attr, code);
    if i < |attr| {
      assert attr[..i] + [] == attr[..i];
      ReplacedAt(attr, i, [], code);
      forall k | 0 <= k < |unset| ensures unset[k].code != code {
        assert unset[k] == attr[if k < i then k else k + 1];
      }
    }
  }

  lemma PutLeaves(attr: Attr, code: string, values: seq<string>)
    requires Distinct(attr)
    ensures var put := Put(attr, code, values);
            && Distinct(put) && Others(put, code) == Others(attr, code)
            && At(put, code) == At(attr, code) < |put| && ValuesOf(put, code) == values
  {
    var i, e := At(attr, code), Entry(code, values);
    PutAt(attr, code, values);
    if i < |attr| {
      assert attr[i := e] == attr[..i] + [e] + attr[i + 1..];
      ReplacedAt(attr, i, [e], code);
    } else {
      OthersJoin(attr, [e], code);
      assert [e][1..] == [] && Others([e], code) == [];
      assert Others(attr, code) + [] == Others(attr, code);
    }
  }

  /**
   Toggling appends an absent value to its code and takes the first occurrence of a present one out,
   drops the code when that was all it had, and leaves the other codes as they are and in order.
   */
  lemma ToggleLeaves(attr: Attr, code: string, value: string) returns (i: nat)
    requires Distinct(attr)
    ensures var before := ValuesOf(attr, code);
            && i <= |before| && value !in before[..i] && (i < |before| ==> before[i] == value)
            && ValuesOf(Toggle(attr, code, value), code)
               == if i < |before| then before[..i] + before[i + 1..] else before + [value]
    ensures var toggled := Toggle(attr, code, value);
            && Distinct(toggled) && Others(toggled, code) == Others(attr, code)
            && (At(toggled, code) < |toggled| <==> ValuesOf(toggled, code) != [])
            && (At(toggled, code) < |toggled| ==> At(toggled, code) == At(attr, code))
  {
    var before := ValuesOf(attr, code);
    i := Search(before, value);
    if Changed(before, value) == [] {
      UnsetAt(attr, code);
    } else {
      PutLeaves(attr, code, Changed(before, value));
    }
  }

  datatype Click = Click(code: string, value: string)

  function Clicked(attr: Attr, clicks: seq<Click>): Attr
    decreases clicks
  {
    if clicks == [] then attr else Clicked(Toggle(attr, clicks[0].code, clicks[0].value), clicks[1..])
  }

  lemma UnsetClean(attr: Attr, code: string)
    requires Clean(attr)
    ensures Clean(Unset(attr, code))
  {
  }

  lemma ChangedClean(attr: Attr, code: string, value: string)
    requires Clean(attr) && CleanCode(code) && CleanValue(value)
    ensures TidyEntry(Entry(code, Changed(ValuesOf(attr, code), value)))
  {
    if At(attr, code) < |attr| {
      assert TidyEntry(attr[At(attr, code)]);
    }
  }

  lemma PutClean(attr: Attr, code: string, values: seq<string>)
    requires Clean(attr) && TidyEntry(Entry(code, values)) && values != []
    ensures Clean(Put(attr, code, values))
  {
    var put := Put(attr, code, values);
    PutTidy(attr, code, values);
    forall e | e in put ensures e.values != [] {
      var j :| 0 <= j < |put| && put[j] == e;
      assert e != Entry(code, values) ==> attr[j] == e && e in attr;
    }
  }

  lemma ToggleClean(attr: Attr, code: string, value: string)
    requires Clean(attr) && CleanCode(code) && CleanValue(value)
    ensures Clean(Toggle(attr, code, value))
  {
    var changed := Changed(ValuesOf(attr, code), value);
    ChangedClean(attr, code, value);
    if changed == [] {
      UnsetClean(attr, code);
    } else {
      PutClean(attr, code, changed);
    }
  }

  /**
   Whatever is clicked, as long as codes and values are clean, the link shared from the page
   restores exactly the selection on it.
   */
  lemma {:induction false} SharedLinksRestoreTheSelection(attr: Attr, clicks: seq<Click>)
    requires Clean(attr) && forall c :: c in clicks ==> CleanCode(c.code) && CleanValue(c.value)
    ensures Parse(Print(Clicked(attr, clicks))) == Clicked(attr, clicks)
    decreases clicks
  {
    if clicks == [] {
      CleanSurvives(attr);
    } else {
      assert clicks[0] in clicks;
      ToggleClean(attr, clicks[0].code, clicks[0].value);
      SharedLinksRestoreTheSelection(Toggle(attr, clicks[0].code, clicks[0].value), clicks[1..]);
    }
  }

  // The component

  class ProductCatalog {
    var attr: Attr
    var attrFilter: string

    constructor (filter: string)
      ensures attrFilter == filter && attr == Parse(filter)
    {
      attr, attrFilter := [], filter;
      new;
      ParseAttrFilter();
    }

    method ParseAttrFilter()
      modifies this`attr
      ensures attr == Parse(attrFilter)
    {
      if attrFilter == "" {
        attr := [];
        return;
      }
      var parsed: Attr := [];
      var segments := Split(attrFilter, ';');
      var i := 0;
      while i < |segments|
        invariant 0 <= i <= |segments|
        invariant AbsorbAll(parsed, segments[i..]) == AbsorbAll([], segments)
      {
        assert segments[i..][1..] == segments[i + 1..];
        var segment := Trim(segments[i]);
        var colon := Find(segment, ':');
        if colon < |segment| {
          parsed := Put(parsed, Trim(segment[..colon]), Kept(Split(segment[colon + 1..], ',')));
        }
        i := i + 1;
      }
      attr := parsed;
    }

    method SyncAttrFilter()
      modifies this`attrFilter
      ensures attrFilter == Print(attr)
    {
      var parts: seq<string> := [];
      var i := 0;
      while i < |attr|
        invariant 0 <= i <= |attr| && parts == Segments(attr[..i])
      {
        SegmentsSnoc(attr[..i], attr[i]);
        assert attr[..i + 1] == attr[..i] + [attr[i]];
        if attr[i].values != [] {
          parts := parts + [attr[i].code + ":" + Join(attr[i].values, ',')];
        }
        i := i + 1;
      }
      assert attr[..|attr|] == attr;
      attrFilter := Join(parts, ';');
    }

    method ToggleAttr(code: string, value: string)
      modifies this
      ensures attr == Toggle(old(attr), code, value) && attrFilter == Print(attr)
    {
      var current := ValuesOf(attr, code);
      var index := Search(current, value);
      if index < |current| {
        current := current[..index] + current[index + 1..];
      } else {
        current := current + [value];
      }
      if current == [] {
        attr := Unset(attr, code);
      } else {
        attr := Put(attr, code, current);
      }
      SyncAttrFilter();
    }
  }
}
