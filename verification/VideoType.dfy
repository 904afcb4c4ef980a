/**
 * The `video_type` normaliser. Lower-casing is a parameter, because it may look at neighbouring characters; all that
 * is used of it is that it treats the texts between commas and white space one by one.
 */
module VideoType {
  /** What `str.strip` removes. */
  predicate IsSpace(c: char) {
    || '\t' <= c <= '\r' || '\U{1c}' <= c <= '\U{1f}' || c == ' ' || c == '\U{85}' || c == '\U{a0}'
    || c == '\U{1680}' || '\U{2000}' <= c <= '\U{200a}' || c == '\U{2028}' || c == '\U{2029}'
    || c == '\U{202f}' || c == '\U{205f}' || c == '\U{3000}'
  }

  /** The code points that count as white space. */
  lemma SpaceCodes(c: char)
    ensures IsSpace(c) <==>
              c as int in {9, 10, 11, 12, 13, 28, 29, 30, 31, 32, 133, 160, 5760, 8192, 8193, 8194, 8195, 8196, 8197,
                           8198, 8199, 8200, 8201, 8202, 8232, 8233, 8239, 8287, 12288}
  {
  }

  /** Commas and white space cut a text into words. */
  predicate IsCut(c: char) {
    c == ',' || IsSpace(c)
  }

  predicate IsWord(s: string) {
    forall c :: c in s ==> !IsCut(c)
  }

  ghost predicate KeepsCut(lower: string -> string, a: string, c: char, b: string) {
    lower(a + [c] + b) == lower(a) + [c] + lower(b)
  }

  /** What is asked of lower-casing. */
  ghost predicate Lowers(lower: string -> string) {
    && (forall a, c, b :: IsCut(c) ==> KeepsCut(lower, a, c, b))
    && (forall s :: IsWord(s) ==> IsWord(lower(s)) && (lower(s) == "" <==> s == ""))
    && (forall s :: lower(lower(s)) == lower(s)) && lower("none") == "none"
  }

  function AsciiLower(s: string): string {
    seq(|s|, i requires 0 <= i < |s| => if 'A' <= s[i] <= 'Z' then (s[i] as int + 32) as char else s[i])
  }

  /** Lower-casing of ASCII letters is an instance. */
  lemma AsciiLowers()
    ensures Lowers(AsciiLower)
  {
    forall a, c, b | IsCut(c) ensures KeepsCut(AsciiLower, a, c, b) {
      assert AsciiLower(a + [c] + b) == AsciiLower(a) + [c] + AsciiLower(b);
    }
    forall s | IsWord(s) ensures IsWord(AsciiLower(s)) {
      forall i | 0 <= i < |s| ensures !IsCut(AsciiLower(s)[i]) {
        assert s[i] in s;
      }
    }
  }

  function TrimLeft(s: string): string {
    if s != [] && IsSpace(s[0]) then TrimLeft(s[1..]) else s
  }

  function TrimRight(s: string): string {
    if s != [] && IsSpace(s[|s| - 1]) then TrimRight(s[..|s| - 1]) else s
  }

  function Trim(s: string): string {
    TrimRight(TrimLeft(s))
  }

  /** The parts between commas; a text without commas is one part. */
  function Split(s: string): (parts: seq<string>)
    ensures parts != []
  {
    if s == [] then [""]
    else Glue(s[0], Split(s[1..]))
  }

  /** The parts of a text, given its first character and the parts of the rest. */
  function Glue(c: char, rest: seq<string>): seq<string>
    requires rest != []
  {
    if c == ',' then [""] + rest else [[c] + rest[0]] + rest[1..]
  }

  function Join(items: seq<string>): string {
    if items == [] then ""
    else if |items| == 1 then items[0]
    else items[0] + "," + Join(items[1..])
  }

  /** Trimmed, without the empty ones. */
  function Clean(parts: seq<string>): seq<string> {
    if parts == [] then []
    else (if Trim(parts[0]) == "" then [] else [Trim(parts[0])]) + Clean(parts[1..])
  }

  predicate TextLe(a: string, b: string) {
    a == [] || (b != [] && (a[0] < b[0] || (a[0] == b[0] && TextLe(a[1..], b[1..]))))
  }

  function Insert(x: string, s: seq<string>): seq<string> {
    if s == [] then [x]
    else if TextLe(x, s[0]) then [x] + s
    else [s[0]] + Insert(x, s[1..])
  }

  function Sort(s: seq<string>): seq<string> {
    if s == [] then [] else Insert(s[0], Sort(s[1..]))
  }

  function Normalize(lower: string -> string, videoType: string): string {
    var raw := lower(Trim(videoType));
    if raw == "" || raw == "none" then "none"
    else if raw == "all" then "all"
    else
      var items := Sort(Clean(Split(raw)));
      if items == [] then "none" else Join(items)
  }

  /** What a text asks for: its lower-cased parts, or `none` when it has none. */
  function Requested(lower: string -> string, videoType: string): seq<string> {
    var parts := Clean(Split(lower(videoType)));
    if parts == [] then ["none"] else parts
  }

  // ---------------------------------------------------------------- order and sorting

  ghost predicate Ordered(s: seq<string>) {
    forall i, k :: 0 <= i < k < |s| ==> TextLe(s[i], s[k])
  }

  lemma {:induction false} TextLeTotal(a: string, b: string)
    ensures TextLe(a, b) || TextLe(b, a)
    ensures TextLe(a, b) && TextLe(b, a) ==> a == b
  {
    if a != [] && b != [] {
      TextLeTotal(a[1..], b[1..]);
      assert a == [a[0]] + a[1..] && b == [b[0]] + b[1..];
    }
  }

  lemma {:induction false} TextLeTransitive(a: string, b: string, c: string)
    requires TextLe(a, b) && TextLe(b, c)
    ensures TextLe(a, c)
  {
    if a != [] && a[0] == b[0] == c[0] {
      TextLeTransitive(a[1..], b[1..], c[1..]);
    }
  }

  lemma {:induction false} InsertKeepsOrder(x: string, s: seq<string>)
    requires Ordered(s)
    ensures Ordered(Insert(x, s)) && multiset(Insert(x, s)) == multiset(s) + multiset{x}
  {
    if s == [] {
    } else if TextLe(x, s[0]) {
      forall k | 0 <= k < |s| ensures TextLe(x, s[k]) {
        if k > 0 {
          TextLeTransitive(x, s[0], s[k]);
        }
      }
    } else {
      TextLeTotal(x, s[0]);
      InsertKeepsOrder(x, s[1..]);
      var t := Insert(x, s[1..]);
      assert s == [s[0]] + s[1..];
      forall k | 0 <= k < |t| ensures TextLe(s[0], t[k]) {
        assert t[k] in multiset(t);
        if t[k] != x {
          assert t[k] in multiset(s[1..]);
        }
      }
    }
  }

  lemma {:induction false} SortSorts(s: seq<string>)
    ensures Ordered(Sort(s)) && multiset(Sort(s)) == multiset(s)
  {
    if s != [] {
      SortSorts(s[1..]);
      InsertKeepsOrder(s[0], Sort(s[1..]));
      assert s == [s[0]] + s[1..];
    }
  }

  lemma HeadIsLeast(a: seq<string>, x: string)
    requires Ordered(a) && x in multiset(a)
    ensures a != [] && TextLe(a[0], x)
  {
    TextLeTotal(x, x);
    var i :| 0 <= i < |a| && a[i] == x;
  }

  /** An ordered list is determined by its elements. */
  lemma {:induction false} OrderedIsUnique(a: seq<string>, b: seq<string>)
    requires Ordered(a) && Ordered(b) && multiset(a) == multiset(b)
    ensures a == b
  {
    assert |a| == |multiset(a)| == |multiset(b)| == |b|;
    if a != [] {
      hide TextLe;
      SameHead(a, b);
      TailBag(a);
      TailBag(b);
      OrderedIsUnique(a[1..], b[1..]);
      assert a == [a[0]] + a[1..] && b == [b[0]] + b[1..];
    }
  }

  lemma TailBag(a: seq<string>)
    requires a != []
    ensures multiset(a[1..]) == multiset(a) - multiset{a[0]}
  {
    assert a == [a[0]] + a[1..];
  }

  lemma SameHead(a: seq<string>, b: seq<string>)
    requires Ordered(a) && Ordered(b) && multiset(a) == multiset(b) && a != [] && b != []
    ensures a[0] == b[0]
  {
    assert a[0] in multiset(a) && b[0] in multiset(b);
    HeadIsLeast(a, b[0]);
    HeadIsLeast(b, a[0]);
    TextLeTotal(a[0], b[0]);
  }

  lemma SortIgnoresOrder(a: seq<string>, b: seq<string>)
    ensures Sort(a) == Sort(b) <==> multiset(a) == multiset(b)
  {
    SortSorts(a);
    SortSorts(b);
    if multiset(a) == multiset(b) {
      OrderedIsUnique(Sort(a), Sort(b));
    }
  }

  // ---------------------------------------------------------------- trimming and splitting

  lemma {:induction false} TrimLeftAppend(x: string, c: char)
    requires IsSpace(c)
    ensures TrimLeft(x + [c]) == if TrimLeft(x) == [] then [] else TrimLeft(x) + [c]
  {
    if x == [] {
      assert ([] + [c])[1..] == [];
    } else if IsSpace(x[0]) {
      assert (x + [c])[1..] == x[1..] + [c];
      TrimLeftAppend(x[1..], c);
    }
  }

  lemma TrimAppend(x: string, c: char)
    requires IsSpace(c)
    ensures Trim(x + [c]) == Trim(x) && Trim([c] + x) == Trim(x)
  {
    TrimLeftAppend(x, c);
    assert TrimLeft(x) != [] ==> (TrimLeft(x) + [c])[..|TrimLeft(x)|] == TrimLeft(x);
    assert ([c] + x)[1..] == x;
  }

  lemma {:induction false} TrimRightMember(s: string)
    ensures forall c :: c in TrimRight(s) ==> c in s
    ensures TrimRight(s) != [] ==> !IsSpace(TrimRight(s)[|TrimRight(s)| - 1]) && TrimRight(s)[0] == s[0]
  {
    if s != [] && IsSpace(s[|s| - 1]) {
      TrimRightMember(s[..|s| - 1]);
    }
  }

  lemma {:induction false} TrimLeftMember(s: string)
    ensures forall c :: c in TrimLeft(s) ==> c in s
    ensures TrimLeft(s) != [] ==> !IsSpace(TrimLeft(s)[0])
  {
    if s != [] && IsSpace(s[0]) {
      TrimLeftMember(s[1..]);
    }
  }

  /** A text that needs no more trimming. */
  predicate Tight(s: string) {
    s != [] ==> !IsSpace(s[0]) && !IsSpace(s[|s| - 1])
  }

  lemma TrimIsTight(s: string)
    ensures Tight(Trim(s)) && (forall c :: c in Trim(s) ==> c in s)
  {
    TrimLeftMember(s);
    TrimRightMember(TrimLeft(s));
  }

  lemma TightIsTrimmed(s: string)
    requires Tight(s)
    ensures Trim(s) == s
  {
  }

  lemma {:induction false} SplitPrepend(c: char, s: string)
    requires c != ','
    ensures Split([c] + s) == [[c] + Split(s)[0]] + Split(s)[1..]
  {
    assert ([c] + s)[1..] == s;
  }

  /** The parts after one more character at the end. */
  function Extend(parts: seq<string>, c: char): seq<string>
    requires parts != []
  {
    parts[..|parts| - 1] + [parts[|parts| - 1] + [c]]
  }

  lemma GlueExtend(first: char, rest: seq<string>, c: char)
    requires rest != []
    ensures Glue(first, Extend(rest, c)) == Extend(Glue(first, rest), c)
  {
    if first != ',' && |rest| == 1 {
      assert [first] + (rest[0] + [c]) == ([first] + rest[0]) + [c];
    }
  }

  lemma {:induction false} SplitAppend(s: string, c: char)
    requires c != ','
    ensures Split(s + [c]) == Extend(Split(s), c)
  {
    if s == [] {
      assert s + [c] == [c] && [c][1..] == s;
      assert Split(s) == [""] && [c] + "" == "" + [c];
    } else {
      assert (s + [c])[1..] == s[1..] + [c];
      SplitAppend(s[1..], c);
      GlueExtend(s[0], Split(s[1..]), c);
    }
  }

  lemma {:induction false} CleanConcat(a: seq<string>, b: seq<string>)
    ensures Clean(a + b) == Clean(a) + Clean(b)
  {
    if a == [] {
      assert a + b == b;
    } else {
      assert (a + b)[1..] == a[1..] + b;
      CleanConcat(a[1..], b);
    }
  }

  lemma CleanOne(x: string)
    ensures Clean([x]) == if Trim(x) == "" then [] else [Trim(x)]
  {
  }

  /** Outer white space adds no part. */
  lemma SpaceAddsNothing(s: string, c: char)
    requires IsSpace(c) && c != ','
    ensures Clean(Split([c] + s)) == Clean(Split(s)) && Clean(Split(s + [c])) == Clean(Split(s))
  {
    hide IsSpace, Trim;
    var p := Split(s);
    SplitPrepend(c, s);
    TrimAppend(p[0], c);
    SplitAppend(s, c);
    var init, last := p[..|p| - 1], p[|p| - 1];
    assert p == init + [last];
    TrimAppend(last, c);
    CleanConcat(init, [last]);
    CleanConcat(init, [last + [c]]);
    CleanOne(last);
    CleanOne(last + [c]);
  }

  lemma {:induction false} TrimLeftKeepsParts(s: string)
    ensures Clean(Split(TrimLeft(s))) == Clean(Split(s))
  {
    if s != [] && IsSpace(s[0]) {
      TrimLeftKeepsParts(s[1..]);
      SpaceAddsNothing(s[1..], s[0]);
      assert s == [s[0]] + s[1..];
    }
  }

  lemma {:induction false} TrimRightKeepsParts(s: string)
    ensures Clean(Split(TrimRight(s))) == Clean(Split(s))
  {
    if s != [] && IsSpace(s[|s| - 1]) {
      var init := s[..|s| - 1];
      TrimRightKeepsParts(init);
      SpaceAddsNothing(init, s[|s| - 1]);
      assert s == init + [s[|s| - 1]];
    }
  }

  lemma {:induction false} NoCommaNoSplit(s: string)
    requires ',' !in s
    ensures Split(s) == [s]
  {
    if s != [] {
      assert s == [s[0]] + s[1..];
      NoCommaNoSplit(s[1..]);
    }
  }

  // ---------------------------------------------------------------- joining

  /** What a cleaned part looks like. */
  predicate IsItem(s: string) {
    s != "" && Tight(s) && ',' !in s
  }

  lemma {:induction false} SplitAtComma(a: string, b: string)
    requires ',' !in a
    ensures Split(a + "," + b) == [a] + Split(b)
  {
    if a == [] {
      assert a + "," + b == "," + b;
      assert ("," + b)[1..] == b;
    } else {
      assert a + "," + b == [a[0]] + (a[1..] + "," + b);
      SplitAtComma(a[1..], b);
      SplitPrepend(a[0], a[1..] + "," + b);
      assert ([a[1..]] + Split(b))[1..] == Split(b);
      assert a == [a[0]] + a[1..];
    }
  }

  /** Splitting undoes joining. */
  lemma {:induction false} SplitJoin(items: seq<string>)
    requires items != [] && forall x :: x in items ==> ',' !in x
    ensures Split(Join(items)) == items
  {
    if |items| == 1 {
      NoCommaNoSplit(items[0]);
    } else {
      SplitJoin(items[1..]);
      SplitAtComma(items[0], Join(items[1..]));
    }
  }

  lemma {:induction false} CleanKeepsItems(items: seq<string>)
    requires forall x :: x in items ==> IsItem(x)
    ensures Clean(items) == items
  {
    if items != [] {
      assert items[0] in items;
      TightIsTrimmed(items[0]);
      CleanKeepsItems(items[1..]);
    }
  }

  lemma {:induction false} SplitParts(s: string)
    ensures forall x :: x in Split(s) ==> ',' !in x && forall c :: c in x ==> c in s
  {
    if s != [] {
      SplitParts(s[1..]);
    }
  }

  lemma {:induction false} CleanGivesItems(parts: seq<string>)
    requires forall x :: x in parts ==> ',' !in x
    ensures forall x :: x in Clean(parts) ==> IsItem(x) && exists y :: y in parts && x == Trim(y)
  {
    if parts != [] {
      TrimIsTight(parts[0]);
      CleanGivesItems(parts[1..]);
    }
  }

  // ---------------------------------------------------------------- lower-casing

  /** Where the first word of a text ends. */
  function FirstCut(s: string): (k: nat)
    ensures k <= |s| && IsWord(s[..k]) && (k < |s| ==> IsCut(s[k]))
  {
    if s == [] || IsCut(s[0]) then 0
    else
      assert s[..1 + FirstCut(s[1..])] == [s[0]] + s[1..][..FirstCut(s[1..])];
      1 + FirstCut(s[1..])
  }

  /** Where the last word of a text begins. */
  function LastCut(s: string): (k: nat)
    ensures k <= |s| && IsWord(s[k..]) && (k > 0 ==> IsCut(s[k - 1]))
  {
    if s == [] then 0
    else if IsCut(s[|s| - 1]) then |s|
    else
      var k := LastCut(s[..|s| - 1]);
      assert s[k..] == s[..|s| - 1][k..] + [s[|s| - 1]];
      k
  }

  lemma CutAt(lower: string -> string, s: string, k: nat)
    requires Lowers(lower) && k < |s| && IsCut(s[k])
    ensures lower(s) == lower(s[..k]) + [s[k]] + lower(s[k + 1..])
  {
    assert s == s[..k] + [s[k]] + s[k + 1..];
    assert KeepsCut(lower, s[..k], s[k], s[k + 1..]);
  }

  lemma LowerWord(lower: string -> string, s: string)
    requires Lowers(lower) && IsWord(s)
    ensures IsWord(lower(s)) && (lower(s) == "" <==> s == "")
  {
  }

  lemma LowerTwice(lower: string -> string, s: string)
    requires Lowers(lower)
    ensures lower(lower(s)) == lower(s)
  {
  }

  /** Lower-casing keeps white space at the front, and adds none. */
  lemma LowerHead(lower: string -> string, s: string)
    requires Lowers(lower) && s != ""
    ensures lower(s) != ""
    ensures if IsSpace(s[0]) then lower(s) == [s[0]] + lower(s[1..]) else !IsSpace(lower(s)[0])
  {
    hide Lowers;
    var k := FirstCut(s);
    var first := lower(s[..k]);
    LowerWord(lower, s[..k]);
    if k < |s| {
      CutAt(lower, s, k);
    } else {
      assert s[..k] == s;
    }
    if k == 0 {
      assert s[..k] == "";
    } else {
      assert s[0] == s[..k][0] && s[0] in s[..k];
      assert first[0] in first && lower(s)[0] == first[0];
    }
  }

  /** The same at the back. */
  lemma LowerLast(lower: string -> string, s: string)
    requires Lowers(lower) && s != ""
    ensures lower(s) != ""
    ensures var n := |s| - 1;
            if IsSpace(s[n]) then lower(s) == lower(s[..n]) + [s[n]] else !IsSpace(lower(s)[|lower(s)| - 1])
  {
    hide Lowers;
    var k, n := LastCut(s), |s| - 1;
    var last := lower(s[k..]);
    LowerWord(lower, s[k..]);
    if k > 0 {
      CutAt(lower, s, k - 1);
    } else {
      assert s[k..] == s;
    }
    if k == |s| {
      assert s[k..] == "" && s[k - 1] == s[n];
    } else {
      assert s[n] == s[k..][n - k] && s[n] in s[k..];
      assert last[|last| - 1] in last && lower(s)[|lower(s)| - 1] == last[|last| - 1];
    }
  }

  lemma {:induction false} LowerTrimLeft(lower: string -> string, s: string)
    requires Lowers(lower)
    ensures lower(TrimLeft(s)) == TrimLeft(lower(s))
  {
    hide Lowers;
    if s == "" {
      LowerWord(lower, s);
    } else {
      LowerHead(lower, s);
      if IsSpace(s[0]) {
        LowerTrimLeft(lower, s[1..]);
      }
    }
  }

  lemma {:induction false} LowerTrimRight(lower: string -> string, s: string)
    requires Lowers(lower)
    ensures lower(TrimRight(s)) == TrimRight(lower(s))
  {
    hide Lowers;
    if s == "" {
      LowerWord(lower, s);
    } else {
      LowerLast(lower, s);
      if IsSpace(s[|s| - 1]) {
        LowerTrimRight(lower, s[..|s| - 1]);
      }
    }
  }

  lemma LowerTrim(lower: string -> string, s: string)
    requires Lowers(lower)
    ensures lower(Trim(s)) == Trim(lower(s))
  {
    LowerTrimLeft(lower, s);
    LowerTrimRight(lower, TrimLeft(s));
  }

  lemma {:induction false} LowerAddsNoComma(lower: string -> string, s: string)
    requires Lowers(lower) && ',' !in s
    ensures ',' !in lower(s)
    decreases |s|
  {
    hide Lowers;
    var k := FirstCut(s);
    LowerWord(lower, s[..k]);
    if k < |s| {
      CutAt(lower, s, k);
      LowerAddsNoComma(lower, s[k + 1..]);
      assert s[k] in s;
    } else {
      assert s[..k] == s;
    }
  }

  function LowerAll(lower: string -> string, parts: seq<string>): seq<string> {
    seq(|parts|, i requires 0 <= i < |parts| => lower(parts[i]))
  }

  /** Lower-casing a text lower-cases its parts. */
  lemma {:induction false} LowerSplits(lower: string -> string, s: string)
    requires Lowers(lower)
    ensures Split(lower(s)) == LowerAll(lower, Split(s))
    decreases |s|
  {
    hide Lowers, IsSpace, Split;
    if ',' in s {
      var k := FirstComma(s);
      var a, b := s[..k], s[k + 1..];
      CutAt(lower, s, k);
      LowerAddsNoComma(lower, a);
      LowerSplits(lower, b);
      assert s == a + "," + b;
      SplitAtComma(a, b);
      SplitAtComma(lower(a), lower(b));
      assert LowerAll(lower, [a] + Split(b)) == [lower(a)] + LowerAll(lower, Split(b));
    } else {
      LowerAddsNoComma(lower, s);
      NoCommaNoSplit(s);
      NoCommaNoSplit(lower(s));
    }
  }

  function FirstComma(s: string): (k: nat)
    requires ',' in s
    ensures k < |s| && s[k] == ',' && ',' !in s[..k]
  {
    if s[0] == ',' then 0
    else
      assert s[..1 + FirstComma(s[1..])] == [s[0]] + s[1..][..FirstComma(s[1..])];
      1 + FirstComma(s[1..])
  }

  lemma NoneIsItem()
    ensures IsItem("none")
  {
  }

  /** The parts of a lower-cased text are lower-cased items. */
  lemma RequestedAreItems(lower: string -> string, videoType: string)
    requires Lowers(lower)
    ensures Requested(lower, videoType) != []
    ensures forall x :: x in Requested(lower, videoType) ==> IsItem(x) && lower(x) == x
  {
    var low := lower(videoType);
    var parts := Split(low);
    assert lower("none") == "none";
    hide Lowers, Trim, Split, Clean;
    SplitParts(low);
    CleanGivesItems(parts);
    LowerSplits(lower, videoType);
    forall x | x in Clean(parts) ensures lower(x) == x {
      var y :| y in parts && x == Trim(y);
      var k :| 0 <= k < |parts| && parts[k] == y;
      LowerTwice(lower, Split(videoType)[k]);
      LowerTrim(lower, y);
    }
    NoneIsItem();
  }

  lemma {:induction false} JoinIsLower(lower: string -> string, items: seq<string>)
    requires Lowers(lower) && forall x :: x in items ==> lower(x) == x
    ensures lower(Join(items)) == Join(items)
  {
    if |items| > 1 {
      JoinIsLower(lower, items[1..]);
      assert KeepsCut(lower, items[0], ',', Join(items[1..]));
    } else if items == [] {
      assert IsWord("");
    }
  }

  // ---------------------------------------------------------------- main results

  lemma OneItem(x: string)
    requires IsItem(x)
    ensures Clean(Split(x)) == [x] && Sort([x]) == [x] && Join([x]) == x
  {
    NoCommaNoSplit(x);
    CleanKeepsItems([x]);
  }

  lemma OuterTrimKeepsRequest(lower: string -> string, videoType: string)
    requires Lowers(lower)
    ensures Clean(Split(lower(Trim(videoType)))) == Clean(Split(lower(videoType)))
  {
    var low := lower(videoType);
    LowerTrim(lower, videoType);
    TrimLeftKeepsParts(low);
    TrimRightKeepsParts(TrimLeft(low));
  }

  lemma NoPartsMeansNone(parts: seq<string>)
    ensures Sort(parts) == [] <==> parts == []
  {
    SortSorts(parts);
    if parts != [] {
      assert parts[0] in multiset(Sort(parts));
    }
  }

  /** The early returns and the outer trim agree with the general path. */
  lemma NormalizeIsJoinedRequest(lower: string -> string, videoType: string)
    requires Lowers(lower)
    ensures Normalize(lower, videoType) == Join(Sort(Requested(lower, videoType)))
  {
    var raw := lower(Trim(videoType));
    OuterTrimKeepsRequest(lower, videoType);
    OneItem("none");
    hide Lowers, Trim, Split, Clean, Sort, Join;
    if raw == "" {
      NoCommaNoSplit("");
      EmptyHasNoParts();
    } else if raw == "none" {
    } else if raw == "all" {
      OneItem("all");
    } else {
      NoPartsMeansNone(Clean(Split(raw)));
    }
  }

  lemma EmptyHasNoParts()
    ensures Clean(Split("")) == []
  {
    CleanOne("");
  }

  /** Two texts normalise alike exactly when they ask for the same parts, each as often. */
  lemma NormalizeDecidesRequest(lower: string -> string, s: string, t: string)
    requires Lowers(lower)
    ensures Normalize(lower, s) == Normalize(lower, t) <==>
              multiset(Requested(lower, s)) == multiset(Requested(lower, t))
  {
    NormalizeIsJoinedRequest(lower, s);
    NormalizeIsJoinedRequest(lower, t);
    SortIgnoresOrder(Requested(lower, s), Requested(lower, t));
    SortedRequest(lower, s);
    SortedRequest(lower, t);
    SplitJoin(Sort(Requested(lower, s)));
    SplitJoin(Sort(Requested(lower, t)));
  }

  lemma SortedRequest(lower: string -> string, s: string)
    requires Lowers(lower)
    ensures var items := Sort(Requested(lower, s)); items != [] && forall x :: x in items ==> IsItem(x) && lower(x) == x
  {
    var items := Sort(Requested(lower, s));
    RequestedAreItems(lower, s);
    SortSorts(Requested(lower, s));
    forall x | x in items ensures IsItem(x) && lower(x) == x {
      assert x in multiset(items);
      assert x in multiset(Requested(lower, s));
    }
    assert Requested(lower, s)[0] in multiset(items);
  }

  /** A normalised text is its own normal form, and is never empty. */
  lemma NormalizeIsIdempotent(lower: string -> string, videoType: string)
    requires Lowers(lower)
    ensures Normalize(lower, Normalize(lower, videoType)) == Normalize(lower, videoType)
    ensures Normalize(lower, videoType) != ""
  {
    var items := Sort(Requested(lower, videoType));
    var normal := Normalize(lower, videoType);
    NormalizeIsJoinedRequest(lower, videoType);
    SortedRequest(lower, videoType);
    SplitJoin(items);
    CleanKeepsItems(items);
    JoinIsLower(lower, items);
    assert lower(normal) == normal;
    assert Requested(lower, normal) == items;
    NormalizeIsJoinedRequest(lower, normal);
    SortSorts(Requested(lower, videoType));
    SortSorts(items);
    OrderedIsUnique(Sort(items), items);
    assert items[0] in items;
  }

  /** A text is normalised to `none` exactly when that is its only part or it has none. */
  lemma NormalizedNone(lower: string -> string, s: string)
    requires Lowers(lower)
    ensures Normalize(lower, s) == "none" <==> Requested(lower, s) == ["none"]
  {
    NormalizeIsJoinedRequest(lower, s);
    SortedRequest(lower, s);
    SplitJoin(Sort(Requested(lower, s)));
    NoCommaNoSplit("none");
    SortSorts(Requested(lower, s));
    if Sort(Requested(lower, s)) == ["none"] {
      OnlyOne(Requested(lower, s), "none");
    }
  }

  lemma OnlyOne(s: seq<string>, x: string)
    requires multiset(s) == multiset{x}
    ensures s == [x]
  {
    assert |s| == |multiset(s)| == 1;
    assert s[0] in multiset(s);
  }

  // ---------------------------------------------------------------- what the parts mean

  /** The texts agree before position `k`, where `a` has the smaller character. */
  predicate SmallerAt(a: string, b: string, k: int) {
    0 <= k < |a| && k < |b| && a[..k] == b[..k] && a[k] < b[k]
  }

  lemma SmallerAtLater(a: string, b: string, k: int)
    requires a != [] && b != [] && a[0] == b[0]
    ensures k >= 0 ==> (SmallerAt(a[1..], b[1..], k) <==> SmallerAt(a, b, k + 1))
    ensures !SmallerAt(a, b, 0)
  {
    if 0 <= k < |a| - 1 && k < |b| - 1 {
      assert a[..k + 1] == [a[0]] + a[1..][..k] && b[..k + 1] == [b[0]] + b[1..][..k];
      assert a[1..][..k] == a[..k + 1][1..] && b[1..][..k] == b[..k + 1][1..];
    }
  }

  /** Texts are compared by code points: a prefix comes first, else the smaller character at the first difference. */
  lemma {:induction false} TextLeMeans(a: string, b: string)
    ensures TextLe(a, b) <==> a <= b || exists k :: SmallerAt(a, b, k)
  {
    if a != [] && b != [] && a[0] == b[0] {
      var c, d := a[1..], b[1..];
      TextLeMeans(c, d);
      assert a == [a[0]] + c && b == [b[0]] + d;
      assert a <= b <==> c <= d;
      forall k ensures SmallerAt(a, b, k) <==> SmallerAt(c, d, k - 1) {
        SmallerAtLater(a, b, k - 1);
      }
      if k :| SmallerAt(c, d, k) {
        assert SmallerAt(a, b, k + 1);
      }
    } else if a != [] && b != [] {
      assert SmallerAt(a, b, 0) <==> a[0] < b[0];
      forall k | k != 0 ensures !SmallerAt(a, b, k) {
        assert 0 < k < |a| && k < |b| ==> a[..k][0] == a[0] && b[..k][0] == b[0];
      }
    } else {
      assert forall k :: !SmallerAt(a, b, k);
    }
  }

  /** Trimming cuts off white space at both ends and nothing else. */
  lemma TrimCutsSpace(s: string) returns (left: nat, right: nat)
    ensures left <= right <= |s| && Trim(s) == s[left..right] && Tight(Trim(s))
    ensures forall i :: 0 <= i < left || right <= i < |s| ==> IsSpace(s[i])
  {
    left := LeftSpace(s);
    var rest := TrimLeft(s);
    var n := RightSpace(rest);
    right := left + n;
    TrimIsTight(s);
    assert rest[..right - left] == s[left..right];
    hide IsSpace, TrimLeft, TrimRight;
    assert forall i :: right <= i < |s| ==> s[i] == rest[i - left];
  }

  lemma {:induction false} LeftSpace(s: string) returns (k: nat)
    ensures k <= |s| && TrimLeft(s) == s[k..] && forall i :: 0 <= i < k ==> IsSpace(s[i])
  {
    k := 0;
    if s != [] && IsSpace(s[0]) {
      var n := LeftSpace(s[1..]);
      k := n + 1;
      assert s[1..][n..] == s[k..];
      assert forall i :: 1 <= i < k ==> s[i] == s[1..][i - 1];
    }
  }

  lemma {:induction false} RightSpace(s: string) returns (k: nat)
    ensures k <= |s| && TrimRight(s) == s[..k] && forall i :: k <= i < |s| ==> IsSpace(s[i])
  {
    k := |s|;
    if s != [] && IsSpace(s[|s| - 1]) {
      var init := s[..|s| - 1];
      k := RightSpace(init);
      assert init[..k] == s[..k];
      assert forall i :: k <= i < |init| ==> s[i] == init[i];
    }
  }
}
