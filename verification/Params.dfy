/**
  Scanner parameters given as comma-separated text, and the lists read from them.
 */
module Params {
  import opened Wrappers
  import opened Text

  /** One value of a parameter list. */
  datatype Item =
    | Nil
    | Str(text: string)
    | Bytes(text: string)
    | Number(text: string)     // json.Number
    | Int(number: int)
    | Flag(flag: bool)
    | Float(printed: string, truncated: int)   // with its shortest decimal text and its integer part
    | Other                    // any type the conversions do not know

  /** A parameter's value as it reaches the list conversions. */
  datatype Value =
    | Plain(text: string)
    | StringList(strings: seq<string>)
    | IntList(ints: seq<int>)
    | Mixed(items: seq<Item>)
    | Unknown

  /** White space as Unicode defines it. */
  predicate IsSpace(c: char) {
    c in "\t\n\U{0B}\U{0C}\r \U{85}\U{A0}\U{1680}\U{2028}\U{2029}\U{202F}\U{205F}\U{3000}"
    || '\U{2000}' <= c <= '\U{200A}'
  }

  function TrimLeft(s: string): string {
    if s != "" && IsSpace(s[0]) then TrimLeft(s[1..]) else s
  }

  function TrimRight(s: string): string {
    if s != "" && IsSpace(s[|s| - 1]) then TrimRight(s[..|s| - 1]) else s
  }

  function TrimSpace(s: string): string { TrimRight(TrimLeft(s)) }

  /** No white space at either end. */
  predicate Trimmed(s: string) {
    s == "" || (!IsSpace(s[0]) && !IsSpace(s[|s| - 1]))
  }

  predicate IsDigit(c: char) { '0' <= c <= '9' }

  predicate AllDigits(s: string) { forall i | 0 <= i < |s| :: IsDigit(s[i]) }

  /** The value of a string of decimal digits. */
  function Digits(s: string): int
    requires AllDigits(s)
  {
    if s == "" then 0 else 10 * Digits(s[..|s| - 1]) + (s[|s| - 1] as int - '0' as int)
  }

  function PrintNat(n: nat): string {
    if n < 10 then [('0' as int + n) as char]
    else PrintNat(n / 10) + [('0' as int + n % 10) as char]
  }

  /** strconv.FormatInt in base ten. */
  function FormatInt(n: int): string {
    if n < 0 then "-" + PrintNat(-n) else PrintNat(n)
  }

  const MIN_INT := -0x8000_0000_0000_0000
  const MAX_INT := 0x7FFF_FFFF_FFFF_FFFF

  predicate IsInt64(n: int) { MIN_INT <= n <= MAX_INT }

  predicate Signed(s: string) { s != "" && (s[0] == '+' || s[0] == '-') }

  /** strconv.Atoi: None is an error, of syntax or of range. */
  function Atoi(s: string): Option<int> {
    var body := if Signed(s) then s[1..] else s;
    if body == "" || !AllDigits(body) then None
    else
      var n: int := if s[0] == '-' then -Digits(body) else Digits(body);
      if IsInt64(n) then Some(n) else None
  }

  function ToString(v: Item, fallback: string): string {
    match v
    case Str(t) => t
    case Bytes(t) => t
    case Number(t) => t
    case Int(n) => FormatInt(n)
    case Flag(b) => if b then "true" else "false"
    case Float(printed, _) => printed
    case _ => fallback
  }

  function ToInt(v: Item, fallback: int): int {
    match v
    case Int(n) => n
    case Float(_, truncated) => truncated
    case Str(t) => if Atoi(t).Some? then Atoi(t).value else fallback
    case Number(t) => if Atoi(t).Some? then Atoi(t).value else fallback
    case _ => fallback
  }

  // ---- what the two list conversions compute ----

  function NonEmpty(parts: seq<string>): seq<string> {
    if parts == [] then []
    else (if TrimSpace(parts[0]) == "" then [] else [TrimSpace(parts[0])]) + NonEmpty(parts[1..])
  }

  /** The trimmed, non-empty parts of comma-separated text. */
  function Items(s: string): seq<string> { NonEmpty(Split(s, ',')) }

  /** The integers among some strings, in order. */
  function Parsable(items: seq<string>): seq<int> {
    if items == [] then []
    else (if Atoi(items[0]).Some? then [Atoi(items[0]).value] else []) + Parsable(items[1..])
  }

  function ItemStrings(items: seq<Item>): seq<string> {
    if items == [] then []
    else (if items[0].Nil? then [] else [ToString(items[0], "")]) + ItemStrings(items[1..])
  }

  function FormatAll(xs: seq<int>): seq<string> {
    seq(|xs|, i requires 0 <= i < |xs| => FormatInt(xs[i]))
  }

  lemma {:induction false} NonEmptyAppend(a: seq<string>, p: string)
    ensures NonEmpty(a + [p]) == NonEmpty(a) + (if TrimSpace(p) == "" then [] else [TrimSpace(p)])
  {
    hide TrimSpace;
    if a != [] {
      assert (a + [p])[0] == a[0] && (a + [p])[1..] == a[1..] + [p];
      NonEmptyAppend(a[1..], p);
    }
  }

  lemma {:induction false} ParsableAppend(a: seq<string>, b: seq<string>)
    ensures Parsable(a + b) == Parsable(a) + Parsable(b)
  {
    hide Atoi;
    if a == [] {
      assert a + b == b;
    } else {
      assert (a + b)[0] == a[0] && (a + b)[1..] == a[1..] + b;
      var head := if Atoi(a[0]).Some? then [Atoi(a[0]).value] else [];
      assert Parsable(a) == head + Parsable(a[1..]);
      assert Parsable(a + b) == head + Parsable(a[1..] + b);
      ParsableAppend(a[1..], b);
      hide Parsable;
      assert head + (Parsable(a[1..]) + Parsable(b)) == (head + Parsable(a[1..])) + Parsable(b);
    }
  }

  lemma {:induction false} ItemStringsAppend(a: seq<Item>, v: Item)
    ensures ItemStrings(a + [v]) == ItemStrings(a) + (if v.Nil? then [] else [ToString(v, "")])
  {
    if a != [] {
      assert (a + [v])[0] == a[0] && (a + [v])[1..] == a[1..] + [v];
      ItemStringsAppend(a[1..], v);
    }
  }

  /** Empty text is no integer, so skipping empty parts before or after parsing is the same. */
  lemma OneMorePart(items: seq<string>, t: string)
    ensures Parsable(items + (if t == "" then [] else [t]))
            == Parsable(items) + (if Atoi(t).Some? then [Atoi(t).value] else [])
  {
    assert Atoi("").None?;
    hide Atoi;
    ParsableAppend(items, if t == "" then [] else [t]);
    assert Parsable([t][1..]) == [];
  }

  method ToStrings(v: Value, fallback: seq<string>) returns (result: seq<string>)
    ensures v.Plain? ==> result == Items(v.text)
    ensures v.StringList? ==> result == v.strings
    ensures v.Mixed? ==> result == ItemStrings(v.items)
    ensures v.IntList? || v.Unknown? ==> result == fallback
  {
    hide TrimSpace, Split, ToString;
    match v
    case StringList(strings) => return strings;
    case Mixed(items) =>
      result := [];
      for i := 0 to |items|
        invariant result == ItemStrings(items[..i])
      {
        assert items[..i + 1] == items[..i] + [items[i]];
        ItemStringsAppend(items[..i], items[i]);
        if !items[i].Nil? {
          result := result + [ToString(items[i], "")];
        }
      }
      assert items[..|items|] == items;
    case Plain(s) =>
      var parts := Split(s, ',');
      result := [];
      for i := 0 to |parts|
        invariant result == NonEmpty(parts[..i])
      {
        assert parts[..i + 1] == parts[..i] + [parts[i]];
        NonEmptyAppend(parts[..i], parts[i]);
        var t := TrimSpace(parts[i]);
        if t != "" {
          result := result + [t];
        }
      }
      assert parts[..|parts|] == parts;
    case _ => return fallback;
  }

  /**
    The integers read from text are exactly the integer-parsable items of the
    string list read from the same text, in order.
   */
  method ToInts(v: Value, fallback: seq<int>) returns (result: seq<int>)
    ensures v.Plain? ==> result == Parsable(Items(v.text))
    ensures v.IntList? ==> result == v.ints
    ensures v.Mixed? ==>
              |result| == |v.items| && forall i | 0 <= i < |result| :: result[i] == ToInt(v.items[i], 0)
    ensures v.StringList? || v.Unknown? ==> result == fallback
  {
    hide TrimSpace, Split, Atoi, ToInt;
    match v
    case IntList(ints) => return ints;
    case Mixed(items) =>
      result := [];
      for i := 0 to |items|
        invariant |result| == i && forall k | 0 <= k < i :: result[k] == ToInt(items[k], 0)
      {
        result := result + [ToInt(items[i], 0)];
      }
    case Plain(s) =>
      var parts := Split(s, ',');
      result := [];
      for i := 0 to |parts|
        invariant result == Parsable(NonEmpty(parts[..i]))
      {
        assert parts[..i + 1] == parts[..i] + [parts[i]];
        NonEmptyAppend(parts[..i], parts[i]);
        var t := TrimSpace(parts[i]);
        OneMorePart(NonEmpty(parts[..i]), t);
        if Atoi(t).Some? {
          result := result + [Atoi(t).value];
        }
      }
      assert parts[..|parts|] == parts;
    case _ => return fallback;
  }

  // ---- the normal form of a comma list ----

  /** What an item of a list read from text looks like. */
  predicate Normal(s: string) { s != "" && Trimmed(s) && Free(s, ',') }

  predicate AllNormal(items: seq<string>) { forall i | 0 <= i < |items| :: Normal(items[i]) }

  predicate Blank(s: string) { forall i | 0 <= i < |s| :: IsSpace(s[i]) }

  lemma {:induction false} TrimLeftKeeps(s: string)
    ensures |TrimLeft(s)| <= |s| && TrimLeft(s) == s[|s| - |TrimLeft(s)|..]
    ensures Blank(s[..|s| - |TrimLeft(s)|])
    ensures TrimLeft(s) == "" || !IsSpace(TrimLeft(s)[0])
  {
    hide IsSpace;
    if s != "" && IsSpace(s[0]) {
      TrimLeftKeeps(s[1..]);
      assert s[..|s| - |TrimLeft(s)|] == [s[0]] + s[1..][..|s| - 1 - |TrimLeft(s)|];
    }
  }

  lemma {:induction false} TrimRightKeeps(s: string)
    ensures |TrimRight(s)| <= |s| && TrimRight(s) == s[..|TrimRight(s)|]
    ensures Blank(s[|TrimRight(s)|..])
    ensures TrimRight(s) == "" || !IsSpace(TrimRight(s)[|TrimRight(s)| - 1])
  {
    hide IsSpace;
    if s != "" && IsSpace(s[|s| - 1]) {
      TrimRightKeeps(s[..|s| - 1]);
      assert s[|TrimRight(s)|..] == s[..|s| - 1][|TrimRight(s)|..] + [s[|s| - 1]];
    }
  }

  /** Trimming takes white space off both ends, all of it, and nothing else. */
  lemma TrimSpaceIsInner(s: string) returns (lead: string, trail: string)
    ensures s == lead + TrimSpace(s) + trail
    ensures Blank(lead) && Blank(trail) && Trimmed(TrimSpace(s))
  {
    hide TrimLeft, TrimRight, IsSpace, Blank;
    var t := TrimLeft(s);
    var u := TrimRight(t);
    TrimLeftKeeps(s);
    TrimRightKeeps(t);
    lead, trail := s[..|s| - |t|], t[|u|..];
    PrefixIsTrimmed(t, u);
    hide Trimmed;
    ThreeParts(s, t, u);
  }

  lemma ThreeParts(s: string, t: string, u: string)
    requires |t| <= |s| && t == s[|s| - |t|..]
    requires |u| <= |t| && u == t[..|u|]
    ensures s == s[..|s| - |t|] + u + t[|u|..]
  {
    assert t == u + t[|u|..];
  }

  lemma PrefixIsTrimmed(t: string, u: string)
    requires |u| <= |t| && u == t[..|u|]
    requires t == "" || !IsSpace(t[0])
    requires u == "" || !IsSpace(u[|u| - 1])
    ensures Trimmed(u)
  {
    hide IsSpace;
    assert u != "" ==> u[0] == t[0];
  }

  lemma TrimSpaceTrims(s: string)
    ensures Trimmed(TrimSpace(s))
    ensures Free(s, ',') ==> Free(TrimSpace(s), ',')
  {
    hide TrimSpace, Trimmed, Blank;
    var lead, trail := TrimSpaceIsInner(s);
    var t := TrimSpace(s);
    assert forall i | 0 <= i < |t| :: t[i] == s[|lead| + i];
  }

  lemma {:induction false} PartsAreNormal(parts: seq<string>)
    requires AllFree(parts, ',')
    ensures AllNormal(NonEmpty(parts))
  {
    if parts != [] {
      assert Free(parts[0], ',') && AllFree(parts[1..], ',');
      TrimSpaceTrims(parts[0]);
      PartsAreNormal(parts[1..]);
    }
  }

  /** Every item read from text is non-empty, trimmed and free of commas. */
  lemma ItemsAreNormal(s: string)
    ensures AllNormal(Items(s))
  {
    SplitIsFree(s, ',');
    PartsAreNormal(Split(s, ','));
  }

  lemma {:induction false} NormalPartsStay(items: seq<string>)
    requires AllNormal(items)
    ensures NonEmpty(items) == items
  {
    if items != [] {
      assert Normal(items[0]) && AllNormal(items[1..]);
      assert TrimLeft(items[0]) == items[0] && TrimRight(items[0]) == items[0];
      NormalPartsStay(items[1..]);
    }
  }

  /** The lists that survive being joined by commas and read again: exactly those of normal items. */
  lemma ListSurvivesIff(items: seq<string>)
    ensures Items(Join(items, ',')) == items <==> AllNormal(items)
  {
    ItemsAreNormal(Join(items, ','));
    if AllNormal(items) {
      if items == [] {
        assert Split("", ',') == [""];
      } else {
        assert AllFree(items, ',') by {
          forall i | 0 <= i < |items| ensures Free(items[i], ',') { assert Normal(items[i]); }
        }
        SplitJoin(items, ',');
        NormalPartsStay(items);
      }
    }
  }

  /** Reading, joining and reading again changes nothing, whatever the text. */
  lemma ReadingIsIdempotent(s: string)
    ensures Items(Join(Items(s), ',')) == Items(s)
  {
    ItemsAreNormal(s);
    ListSurvivesIff(Items(s));
  }

  // ---- integers ----

  lemma {:induction false} PrintedNat(n: nat)
    ensures PrintNat(n) != "" && AllDigits(PrintNat(n)) && Digits(PrintNat(n)) == n
  {
    var last := [('0' as int + n % 10) as char];
    if n < 10 {
      assert PrintNat(n)[..0] == "" && Digits("") == 0;
    } else {
      var front := PrintNat(n / 10);
      PrintedNat(n / 10);
      assert (front + last)[..|front|] == front;
      assert AllDigits(front + last);
    }
  }

  lemma AtoiOfDigits(body: string)
    requires body != "" && AllDigits(body)
    ensures IsInt64(Digits(body)) ==> Atoi(body) == Some(Digits(body))
    ensures IsInt64(-Digits(body)) ==> Atoi("-" + body) == Some(-Digits(body))
  {
    hide Digits;
    assert IsDigit(body[0]) && !Signed(body);
    assert ("-" + body)[1..] == body && Signed("-" + body);
  }

  lemma DigitsAreNormal(body: string)
    requires body != "" && AllDigits(body)
    ensures Normal(body) && Normal("-" + body)
  {
    assert forall i | 0 <= i < |body| :: IsDigit(body[i]);
    var s := "-" + body;
    assert forall i | 0 < i < |s| :: s[i] == body[i - 1];
  }

  /** Every 64-bit integer reads back as itself, and its text is a normal item. */
  lemma PrintedIntReadsBack(n: int)
    requires IsInt64(n)
    ensures Atoi(FormatInt(n)) == Some(n) && Normal(FormatInt(n))
  {
    hide Atoi, Normal, AllDigits, Digits, PrintNat;
    var m: nat := if n < 0 then -n else n;
    PrintedNat(m);
    AtoiOfDigits(PrintNat(m));
    DigitsAreNormal(PrintNat(m));
  }

  lemma {:induction false} ParsablePrinted(xs: seq<int>)
    requires forall i | 0 <= i < |xs| :: IsInt64(xs[i])
    ensures Parsable(FormatAll(xs)) == xs && AllNormal(FormatAll(xs))
  {
    hide Atoi, FormatInt, Normal;
    if xs != [] {
      var items := FormatAll(xs);
      assert items[1..] == FormatAll(xs[1..]);
      PrintedIntReadsBack(xs[0]);
      ParsablePrinted(xs[1..]);
      assert AllNormal(items) by {
        forall i | 0 <= i < |items| ensures Normal(items[i]) { PrintedIntReadsBack(xs[i]); }
      }
      assert xs == [xs[0]] + xs[1..];
    }
  }

  /** Printing a list of 64-bit integers and reading it back returns the list. */
  lemma IntListRoundTrip(xs: seq<int>)
    requires forall i | 0 <= i < |xs| :: IsInt64(xs[i])
    ensures Parsable(Items(Join(FormatAll(xs), ','))) == xs
  {
    ParsablePrinted(xs);
    ListSurvivesIff(FormatAll(xs));
  }

  lemma {:induction false} ParsableAreInts(items: seq<string>)
    ensures forall i | 0 <= i < |Parsable(items)| :: IsInt64(Parsable(items)[i])
  {
    if items != [] { ParsableAreInts(items[1..]); }
  }

  /** Text read as integers has a canonical form that reads as the same integers. */
  lemma IntsHaveCanonicalText(s: string)
    ensures Parsable(Items(Join(FormatAll(Parsable(Items(s))), ','))) == Parsable(Items(s))
  {
    ParsableAreInts(Items(s));
    IntListRoundTrip(Parsable(Items(s)));
  }

  lemma ParsableOfJunk(junk: string)
    requires Atoi(junk).None?
    ensures Parsable([junk]) == []
  {
    assert Parsable([junk][1..]) == [];
  }

  /** One item that is no integer is dropped and leaves the others alone. */
  lemma UnparsableItemIsDropped(before: seq<string>, junk: string, after: seq<string>)
    requires AllNormal(before) && AllNormal(after) && Normal(junk) && Atoi(junk).None?
    ensures Parsable(Items(Join(before + [junk] + after, ',')))
            == Parsable(Items(Join(before + after, ',')))
  {
    hide Items, Join, Normal, Atoi, Parsable;
    var items := before + [junk] + after;
    assert AllNormal(items) && AllNormal(before + after);
    ListSurvivesIff(items);
    ListSurvivesIff(before + after);
    ParsableAppend(before + [junk], after);
    ParsableAppend(before, [junk]);
    ParsableAppend(before, after);
    ParsableOfJunk(junk);
  }

  // ---- lists as people write them ----

  /** The 25 characters Unicode calls white space. */
  predicate White(c: char) {
    c in {' ', '\t', '\n', '\U{0B}', '\U{0C}', '\r', '\U{85}', '\U{A0}', '\U{1680}', '\U{2000}', '\U{2001}',
          '\U{2002}', '\U{2003}', '\U{2004}', '\U{2005}', '\U{2006}', '\U{2007}', '\U{2008}', '\U{2009}',
          '\U{200A}', '\U{2028}', '\U{2029}', '\U{202F}', '\U{205F}', '\U{3000}'}
  }

  lemma WhiteIsSpace(c: char)
    ensures White(c) <==> IsSpace(c)
    ensures White(c) ==> c != ','
  {}

  predicate Padding(s: string) { forall i | 0 <= i < |s| :: White(s[i]) }

  /** Printable ASCII without blanks and commas. */
  predicate Word(s: string) { s != "" && forall i | 0 <= i < |s| :: '!' <= s[i] <= '~' && s[i] != ',' }

  lemma {:induction false} TrimLeftPadding(lead: string, x: string)
    requires Padding(lead) && (x == "" || !IsSpace(x[0]))
    ensures TrimLeft(lead + x) == x
  {
    hide IsSpace, White;
    if lead == "" {
      assert lead + x == x;
    } else {
      assert (lead + x)[0] == lead[0] && (lead + x)[1..] == lead[1..] + x;
      WhiteIsSpace(lead[0]);
      TrimLeftPadding(lead[1..], x);
    }
  }

  lemma {:induction false} TrimRightPadding(x: string, trail: string)
    requires Padding(trail) && (x == "" || !IsSpace(x[|x| - 1]))
    ensures TrimRight(x + trail) == x
  {
    hide IsSpace, White;
    var s := x + trail;
    if trail == "" {
      assert s == x;
    } else {
      assert s[|s| - 1] == trail[|trail| - 1] && s[..|s| - 1] == x + trail[..|trail| - 1];
      WhiteIsSpace(trail[|trail| - 1]);
      TrimRightPadding(x, trail[..|trail| - 1]);
    }
  }

  lemma TrimPadded(lead: string, w: string, trail: string)
    requires Padding(lead) && Word(w) && Padding(trail)
    ensures TrimSpace(lead + w + trail) == w && Free(lead + w + trail, ',')
  {
    assert !IsSpace(w[0]) && !IsSpace(w[|w| - 1]) by { WordHasNoSpace(w); }
    var x := w + trail;
    assert lead + w + trail == lead + x && x[0] == w[0];
    PaddingIsFree(lead);
    PaddingIsFree(trail);
    hide IsSpace, TrimLeft, TrimRight, Padding;
    TrimLeftPadding(lead, x);
    TrimRightPadding(w, trail);
  }

  lemma PaddingIsFree(s: string)
    requires Padding(s)
    ensures Free(s, ',')
  {
    hide White;
    forall i | 0 <= i < |s| ensures s[i] != ',' { WhiteIsSpace(s[i]); }
  }

  lemma WordHasNoSpace(w: string)
    requires Word(w)
    ensures forall i | 0 <= i < |w| :: !IsSpace(w[i])
  {}

  /** A part of a list: a word with padding on either side. */
  datatype Part = Part(lead: string, word: string, trail: string)

  predicate Written(p: Part) { Padding(p.lead) && Word(p.word) && Padding(p.trail) }

  function Texts(parts: seq<Part>): seq<string> {
    if parts == [] then []
    else [parts[0].lead + parts[0].word + parts[0].trail] + Texts(parts[1..])
  }

  function WordsOf(parts: seq<Part>): seq<string> {
    if parts == [] then [] else [parts[0].word] + WordsOf(parts[1..])
  }

  lemma PartTrims(p: Part)
    requires Written(p)
    ensures var text := p.lead + p.word + p.trail; TrimSpace(text) == p.word && p.word != "" && Free(text, ',')
  {
    TrimPadded(p.lead, p.word, p.trail);
    hide TrimSpace, Free;
  }

  lemma {:induction false} PaddedPartsTrim(parts: seq<Part>)
    requires forall i | 0 <= i < |parts| :: Written(parts[i])
    ensures NonEmpty(Texts(parts)) == WordsOf(parts) && AllFree(Texts(parts), ',')
  {
    hide TrimSpace, Free, AllFree, NonEmpty, Written;
    if parts == [] {
      NothingToTrim();
    } else {
      var p := parts[0];
      PartTrims(p);
      PaddedPartsTrim(parts[1..]);
      NonEmptyFirst(p.lead + p.word + p.trail, Texts(parts[1..]));
      AllFreeFirst(p.lead + p.word + p.trail, Texts(parts[1..]));
    }
  }

  lemma NothingToTrim()
    ensures NonEmpty([]) == [] && AllFree([], ',')
  {}

  lemma NonEmptyFirst(text: string, rest: seq<string>)
    ensures NonEmpty([text] + rest) == (if TrimSpace(text) == "" then [] else [TrimSpace(text)]) + NonEmpty(rest)
  {
    hide TrimSpace;
    assert ([text] + rest)[1..] == rest;
  }

  lemma AllFreeFirst(text: string, rest: seq<string>)
    requires Free(text, ',') && AllFree(rest, ',')
    ensures AllFree([text] + rest, ',')
  {
    hide Free;
  }

  /** Words with any white space around them, separated by commas, read as the words. */
  lemma PaddedListReadsBack(parts: seq<Part>)
    requires forall i | 0 <= i < |parts| :: Written(parts[i])
    ensures Items(Join(Texts(parts), ',')) == WordsOf(parts)
  {
    PaddedPartsTrim(parts);
    if parts == [] {
      assert Split("", ',') == [""];
      assert NonEmpty([""]) == [] by { assert [""][1..] == []; }
    } else {
      SplitJoin(Texts(parts), ',');
    }
    hide Split, Join, Texts, WordsOf;
  }

  // ---- exactly what reads as an integer ----

  function Zeros(k: nat): string { seq(k, i => '0') }

  /** An optional sign, any number of zeros, and the printed absolute value. */
  predicate Spells(s: string, sign: string, k: nat, n: int) {
    && s == sign + Zeros(k) + PrintNat(if n < 0 then -n else n)
    && (sign == "" || sign == "+" || sign == "-")
    && (n < 0 ==> sign == "-") && (n > 0 ==> sign != "-")
  }

  /** A digit string is some zeros and the printed form of its value. */
  lemma {:induction false} DigitsSpelled(body: string) returns (k: nat)
    requires body != "" && AllDigits(body)
    ensures Digits(body) >= 0 && body == Zeros(k) + PrintNat(Digits(body))
  {
    var front, last := body[..|body| - 1], body[|body| - 1];
    var d := last as int - '0' as int;
    assert body == front + [last];
    if front == "" {
      k := 0;
      assert Digits(front) == 0;
    } else {
      k := DigitsSpelled(front);
      var m: nat := Digits(front);
      assert Digits(body) == 10 * m + d;
      if m == 0 {
        assert body == Zeros(k) + ['0'] + [last] == Zeros(k + 1) + [last];
        k := k + 1;
      } else {
        assert (10 * m + d) / 10 == m && (10 * m + d) % 10 == d;
        assert body == Zeros(k) + (PrintNat(m) + [last]);
      }
    }
  }

  lemma {:induction false} ZerosAddNothing(k: nat, body: string)
    requires AllDigits(body)
    ensures AllDigits(Zeros(k) + body) && Digits(Zeros(k) + body) == Digits(body)
  {
    var s := Zeros(k) + body;
    if body != "" {
      assert s[..|s| - 1] == Zeros(k) + body[..|body| - 1];
      ZerosAddNothing(k, body[..|body| - 1]);
    } else if k > 0 {
      assert s[..|s| - 1] == Zeros(k - 1) + body;
      ZerosAddNothing(k - 1, body);
    }
  }

  lemma AtoiOfSigned(sign: string, body: string)
    requires body != "" && AllDigits(body) && (sign == "" || sign == "+" || sign == "-")
    ensures var n: int := if sign == "-" then -Digits(body) else Digits(body);
            Atoi(sign + body) == if IsInt64(n) then Some(n) else None
  {
    assert IsDigit(body[0]) && !Signed(body);
    var s := sign + body;
    assert sign == "" ==> s == body;
    assert sign != "" ==> s[1..] == body && s[0] == sign[0];
    hide Digits, AllDigits;
  }

  /**
    Text reads as the integer n if and only if n fits in 64 bits and the text is n's decimal digits
    after an optional sign and any number of zeros.
   */
  lemma AtoiReadsIff(s: string, n: int)
    ensures Atoi(s) == Some(n) <==>
            -9_223_372_036_854_775_808 <= n <= 9_223_372_036_854_775_807 && exists sign, k :: Spells(s, sign, k, n)
  {
    if Atoi(s) == Some(n) {
      var sign, k := AtoiSpelled(s, n);
    }
    if exists sign, k :: Spells(s, sign, k, n) {
      var sign, k :| Spells(s, sign, k, n);
      SpelledReads(s, sign, k, n);
    }
    hide Atoi, Spells;
  }

  lemma SignAndBody(s: string) returns (sign: string, body: string)
    requires Atoi(s).Some?
    ensures s == sign + body && body != "" && AllDigits(body) && (sign == "" || sign == "+" || sign == "-")
  {
    hide AllDigits, Digits;
    body := if Signed(s) then s[1..] else s;
    sign := if Signed(s) then [s[0]] else "";
    assert Signed(s) ==> s == [s[0]] + s[1..];
  }

  lemma AtoiSpelled(s: string, n: int) returns (sign: string, k: nat)
    requires Atoi(s) == Some(n)
    ensures Spells(s, sign, k, n) && IsInt64(n)
  {
    hide Atoi, Digits, AllDigits, PrintNat, Zeros;
    var body;
    sign, body := SignAndBody(s);
    k := DigitsSpelled(body);
    AtoiOfSigned(sign, body);
    var m: nat := Digits(body);
    assert sign == "-" ==> n + m == 0;
    assert sign != "-" ==> n == m;
    assert s == sign + (Zeros(k) + PrintNat(m));
    Reassociate(sign, Zeros(k), PrintNat(m));
  }

  lemma Reassociate(a: string, b: string, c: string)
    ensures a + (b + c) == a + b + c
  {}

  lemma SpelledReads(s: string, sign: string, k: nat, n: int)
    requires Spells(s, sign, k, n)
    ensures IsInt64(n) ==> Atoi(s) == Some(n)
  {
    hide Atoi, Digits, AllDigits, PrintNat, Zeros;
    var m: nat := if n < 0 then -n else n;
    PrintedNat(m);
    NotEmptyAfter(Zeros(k), PrintNat(m));
    ZerosAddNothing(k, PrintNat(m));
    AtoiOfSigned(sign, Zeros(k) + PrintNat(m));
    Reassociate(sign, Zeros(k), PrintNat(m));
  }

  lemma NotEmptyAfter(a: string, b: string)
    requires b != ""
    ensures a + b != ""
  {}

  /** Integers in a mixed list print as texts that read back as the same integers, as strings and as JSON numbers. */
  lemma {:induction false} MixedIntsRoundTrip(xs: seq<int>)
    requires forall i | 0 <= i < |xs| :: IsInt64(xs[i])
    ensures var texts := ItemStrings(seq(|xs|, i requires 0 <= i < |xs| => Int(xs[i])));
            && |texts| == |xs|
            && forall i | 0 <= i < |xs| ::
                 forall d :: ToInt(Str(texts[i]), d) == xs[i] && ToInt(Number(texts[i]), d) == xs[i]
  {
    var items := seq(|xs|, i requires 0 <= i < |xs| => Int(xs[i]));
    if xs != [] {
      var rest := xs[1..];
      assert items[1..] == seq(|rest|, i requires 0 <= i < |rest| => Int(rest[i]));
      PrintedIntReadsBack(xs[0]);
      MixedIntsRoundTrip(rest);
      hide Atoi, FormatInt, Normal;
      assert ItemStrings(items) == [FormatInt(xs[0])] + ItemStrings(items[1..]);
    }
  }

  lemma {:induction false} ItemStringsConcat(a: seq<Item>, b: seq<Item>)
    ensures ItemStrings(a + b) == ItemStrings(a) + ItemStrings(b)
  {
    hide ToString;
    if a == [] {
      assert a + b == b;
    } else {
      assert (a + b)[0] == a[0] && (a + b)[1..] == a[1..] + b;
      ItemStringsConcat(a[1..], b);
    }
  }

  /**
    What one item of a mixed list contributes, wherever it stands: nothing for nil, its text for a
    text, "true" or "false" for a flag, the empty string for a value of an unknown type.
   */
  lemma MixedItemReads(a: seq<Item>, v: Item, b: seq<Item>)
    ensures var texts := ItemStrings(a + [v] + b);
            && (v == Nil ==> texts == ItemStrings(a + b))
            && (forall t | v == Str(t) || v == Bytes(t) || v == Number(t) ::
                  texts == ItemStrings(a) + [t] + ItemStrings(b))
            && (v == Flag(true) ==> texts == ItemStrings(a) + ["true"] + ItemStrings(b))
            && (v == Flag(false) ==> texts == ItemStrings(a) + ["false"] + ItemStrings(b))
            && (v == Other ==> texts == ItemStrings(a) + [""] + ItemStrings(b))
  {
    var one := if v.Nil? then [] else [ToString(v, "")];
    assert [v][1..] == [];
    assert ItemStrings([v]) == one;
    hide ItemStrings, FormatInt;
    ItemStringsConcat(a + [v], b);
    ItemStringsConcat(a, [v]);
    ItemStringsConcat(a, b);
    assert ItemStrings(a) + [] == ItemStrings(a);
  }

  /** Only texts, JSON numbers and numbers of a mixed list read as integers; everything else is the fallback. */
  lemma OnlyNumbersReadAsInts(v: Item, fallback: int)
    ensures v.Nil? || v.Bytes? || v.Flag? || v.Other? ==> ToInt(v, fallback) == fallback
    ensures forall t :: (v == Str(t) || v == Number(t)) && Atoi(t).None? ==> ToInt(v, fallback) == fallback
  {}
}
