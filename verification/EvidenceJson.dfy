/**
  The compact ASCII JSON text of an evidence bundle, and its length.
 */
module EvidenceJson {
  import opened Wrappers
  import opened Evidence

  const HEX := "0123456789abcdef"

  // A code unit as four hexadecimal digits.
  function Unit(n: nat): (r: string)
    requires n < 0x10000
    ensures |r| == 4
  {
    [HEX[n / 4096], HEX[n / 256 % 16], HEX[n / 16 % 16], HEX[n % 16]]
  }

  function CharText(c: char): string {
    if c == '"' then "\\\""
    else if c == '\\' then "\\\\"
    else if c == '\n' then "\\n"
    else if c == '\r' then "\\r"
    else if c == '\t' then "\\t"
    else if c as int == 8 then "\\b"
    else if c as int == 12 then "\\f"
    else if ' ' <= c <= '~' then [c]
    else if c as int < 0x10000 then "\\u" + Unit(c as int)
    else "\\u" + Unit(0xd800 + (c as int - 0x10000) / 1024 % 1024) + "\\u" + Unit(0xdc00 + (c as int - 0x10000) % 1024)
  }

  function CharsText(s: string): string {
    if s == "" then "" else CharsText(s[..|s| - 1]) + CharText(s[|s| - 1])
  }

  function StringText(s: string): string {
    "\"" + CharsText(s) + "\""
  }

  function EntryText(name: string, value: string): string {
    "\"" + name + "\":" + value
  }

  function Joined(parts: seq<string>): string {
    if parts == [] then ""
    else if |parts| == 1 then parts[0]
    else Joined(parts[..|parts| - 1]) + "," + parts[|parts| - 1]
  }

  function Braces(parts: seq<string>): string {
    "{" + Joined(parts) + "}"
  }

  function Brackets(parts: seq<string>): string {
    "[" + Joined(parts) + "]"
  }

  function NumberText(n: nat): string {
    if n < 10 then [HEX[n]] else NumberText(n / 10) + [HEX[n % 10]]
  }

  function FlagParts(name: string, flag: Option<bool>): seq<string> {
    match flag
    case Some(b) => [EntryText(name, if b then "true" else "false")]
    case None => []
  }

  // The pieces of a value that is never looked at, one after the other.
  function Pieces(pieces: Json): string {
    if pieces == [] then "" else Pieces(pieces[..|pieces| - 1]) + pieces[|pieces| - 1]
  }

  function ExcerptParts(s: Sample, field: string): seq<string> {
    if s.SampleObject? && field in s.text then [EntryText(field, StringText(s.text[field]))] else []
  }

  function SampleText(s: Sample): string {
    match s
    case SampleObject(_, flag, rest) =>
      Braces(ExcerptParts(s, "stack_excerpt") + ExcerptParts(s, "message_excerpt") + ExcerptParts(s, "detail")
             + FlagParts("stack_truncated", flag) + rest)
    case OtherSample(pieces) => Pieces(pieces)
  }

  function SampleParts(samples: seq<Sample>): seq<string> {
    seq(|samples|, i requires 0 <= i < |samples| => SampleText(samples[i]))
  }

  function GroupText(g: Group): string {
    match g
    case GroupObject(samples, rest) => Braces([EntryText("samples", Brackets(SampleParts(samples)))] + rest)
    case OtherGroup(pieces) => Pieces(pieces)
  }

  function GroupParts(groups: seq<Group>): seq<string> {
    seq(|groups|, i requires 0 <= i < |groups| => GroupText(groups[i]))
  }

  function StringParts(texts: seq<string>): seq<string> {
    seq(|texts|, i requires 0 <= i < |texts| => StringText(texts[i]))
  }

  // The text of a bundle; the order of entries plays no part for its length.
  function BundleText(b: Bundle): string {
    Braces(FlagParts("truncated", b.truncated)
           + (match b.warnings case Some(ws) => [EntryText("warnings", Brackets(StringParts(ws)))] case None => [])
           + (match b.groups case Some(gs) => [EntryText("groups", Brackets(GroupParts(gs)))] case None => [])
           + (match b.omitted case Some(n) => [EntryText("omitted_groups", NumberText(n))] case None => [])
           + b.rest)
  }

  /******* Lengths *******/

  // The length of all parts, each with a comma.
  function Total(parts: seq<string>): nat {
    if parts == [] then 0 else Total(parts[..|parts| - 1]) + |parts[|parts| - 1]| + 1
  }

  lemma {:induction false} JoinedLength(parts: seq<string>)
    ensures |Joined(parts)| == if parts == [] then 0 else Total(parts) - 1
    ensures parts != [] ==> Total(parts) > 0
  {
    if |parts| > 1 {
      JoinedLength(parts[..|parts| - 1]);
    } else if |parts| == 1 {
      assert parts[..0] == [];
    }
  }

  lemma EnclosedLength(parts: seq<string>)
    ensures |Braces(parts)| == |Brackets(parts)| == Enclosed(Total(parts))
  {
    JoinedLength(parts);
  }

  lemma {:induction false} TotalOfMore(a: seq<string>, b: seq<string>)
    ensures Total(a + b) == Total(a) + Total(b)
  {
    if b == [] {
      assert a + b == a;
    } else {
      assert (a + b)[..|a + b| - 1] == a + b[..|b| - 1];
      TotalOfMore(a, b[..|b| - 1]);
    }
  }

  lemma TotalOfOne(part: string)
    ensures Total([part]) == |part| + 1
  {
    assert [part][..0] == [];
  }

  lemma CharLength(c: char)
    ensures |CharText(c)| == CharSize(c)
  {
  }

  lemma {:induction false} StringLength(s: string)
    ensures |CharsText(s)| == CharsSize(s) && |StringText(s)| == TextSize(s)
  {
    if s != "" {
      StringLength(s[..|s| - 1]);
      CharLength(s[|s| - 1]);
    }
  }

  lemma {:induction false} NumberLength(n: nat)
    ensures |NumberText(n)| == Digits(n)
  {
    if n >= 10 { NumberLength(n / 10); }
  }

  lemma {:induction false} RestLength(rest: Json)
    ensures Total(rest) == RestSize(rest) && |Pieces(rest)| == PiecesSize(rest)
  {
    if rest != [] { RestLength(rest[..|rest| - 1]); }
  }

  lemma EntryLength(name: string, value: string)
    ensures Total([EntryText(name, value)]) == EntrySize(name, |value|)
  {
    TotalOfOne(EntryText(name, value));
  }

  lemma FlagLength(name: string, flag: Option<bool>)
    ensures Total(FlagParts(name, flag)) == FlagSize(name, flag)
  {
    match flag
    case Some(b) => EntryLength(name, if b then "true" else "false");
    case None =>
  }

  lemma ExcerptLength(s: Sample, field: string)
    ensures Total(ExcerptParts(s, field)) == ExcerptSize(s, field)
  {
    if s.SampleObject? && field in s.text {
      StringLength(s.text[field]);
      EntryLength(field, StringText(s.text[field]));
    }
  }

  lemma TotalOfFive(a: seq<string>, b: seq<string>, c: seq<string>, d: seq<string>, e: seq<string>)
    ensures Total(a + b + c + d + e) == Total(a) + Total(b) + Total(c) + Total(d) + Total(e)
  {
    TotalOfMore(a + b + c + d, e);
    TotalOfMore(a + b + c, d);
    TotalOfMore(a + b, c);
    TotalOfMore(a, b);
  }

  lemma SampleLength(s: Sample)
    ensures |SampleText(s)| == SampleSize(s)
  {
    match s
    case SampleObject(_, flag, rest) =>
      var a, b, c, d := ExcerptParts(s, "stack_excerpt"), ExcerptParts(s, "message_excerpt"), ExcerptParts(s, "detail"),
                        FlagParts("stack_truncated", flag);
      ExcerptLength(s, "stack_excerpt");
      ExcerptLength(s, "message_excerpt");
      ExcerptLength(s, "detail");
      FlagLength("stack_truncated", flag);
      RestLength(rest);
      TotalOfFive(a, b, c, d, rest);
      EnclosedLength(a + b + c + d + rest);
      assert EXCERPT_FIELDS[0] == "stack_excerpt" && EXCERPT_FIELDS[1] == "message_excerpt" && EXCERPT_FIELDS[2] == "detail";
      hide ExcerptParts, FlagParts, ExcerptSize, FlagSize, RestSize, Total, Braces, Enclosed;
    case OtherSample(pieces) => RestLength(pieces);
  }

  lemma {:induction false} SamplesLength(samples: seq<Sample>)
    ensures Total(SampleParts(samples)) == SamplesSize(samples)
  {
    if samples != [] {
      var init, last := samples[..|samples| - 1], samples[|samples| - 1];
      SamplesLength(init);
      SampleLength(last);
      assert SampleParts(samples)[..|samples| - 1] == SampleParts(init);
    }
  }

  lemma GroupLength(g: Group)
    ensures |GroupText(g)| == GroupSize(g)
  {
    match g
    case GroupObject(samples, rest) =>
      var inner := Brackets(SampleParts(samples));
      SamplesLength(samples);
      EnclosedLength(SampleParts(samples));
      EntryLength("samples", inner);
      RestLength(rest);
      TotalOfMore([EntryText("samples", inner)], rest);
      EnclosedLength([EntryText("samples", inner)] + rest);
      hide Total, Braces, Brackets, Enclosed, RestSize, EntrySize, SamplesSize, SampleParts;
    case OtherGroup(pieces) => RestLength(pieces);
  }

  lemma {:induction false} GroupsLength(groups: seq<Group>)
    ensures Total(GroupParts(groups)) == GroupsSize(groups)
  {
    if groups != [] {
      var init, last := groups[..|groups| - 1], groups[|groups| - 1];
      GroupsLength(init);
      GroupLength(last);
      assert GroupParts(groups)[..|groups| - 1] == GroupParts(init);
    }
  }

  lemma {:induction false} StringsLength(texts: seq<string>)
    ensures Total(StringParts(texts)) == TextsSize(texts)
  {
    if texts != [] {
      var init, last := texts[..|texts| - 1], texts[|texts| - 1];
      StringsLength(init);
      StringLength(last);
      assert StringParts(texts)[..|texts| - 1] == StringParts(init);
    }
  }

  // The size that is budgeted is the length of this text.
  lemma SizeIsLength(b: Bundle)
    ensures |BundleText(b)| == JsonSize(b)
  {
    var flag := FlagParts("truncated", b.truncated);
    var warnings := match b.warnings case Some(ws) => [EntryText("warnings", Brackets(StringParts(ws)))] case None => [];
    var groups := match b.groups case Some(gs) => [EntryText("groups", Brackets(GroupParts(gs)))] case None => [];
    var omitted := match b.omitted case Some(n) => [EntryText("omitted_groups", NumberText(n))] case None => [];
    hide FlagParts, FlagSize, EntrySize, EntryText, Enclosed, Braces, Brackets, RestSize, TextsSize, GroupsSize, StringParts, GroupParts,
         NumberText, Digits;
    FlagLength("truncated", b.truncated);
    if b.warnings.Some? {
      StringsLength(b.warnings.value);
      EnclosedLength(StringParts(b.warnings.value));
      EntryLength("warnings", Brackets(StringParts(b.warnings.value)));
    }
    if b.groups.Some? {
      GroupsLength(b.groups.value);
      EnclosedLength(GroupParts(b.groups.value));
      EntryLength("groups", Brackets(GroupParts(b.groups.value)));
    }
    if b.omitted.Some? {
      NumberLength(b.omitted.value);
      EntryLength("omitted_groups", NumberText(b.omitted.value));
    }
    RestLength(b.rest);
    TotalOfFive(flag, warnings, groups, omitted, b.rest);
    EnclosedLength(flag + warnings + groups + omitted + b.rest);
    assert Total([]) == 0;
  }
}
