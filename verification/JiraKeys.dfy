/** Jira keys in free text, on ASCII text. */
module JiraKeys {
  import opened Options
  import opened ResourceIds

  // ------------------------------------------------------------------ what a key is

  predicate IsUpper(c: char) {
    'A' <= c <= 'Z'
  }

  predicate IsWord(c: char) {
    IsUpper(c) || 'a' <= c <= 'z' || IsDigit(c) || c == '_'
  }

  predicate IsKeyChar(c: char) {
    IsUpper(c) || IsDigit(c)
  }

  /** A word boundary between positions `i - 1` and `i`. */
  predicate Boundary(t: string, i: nat)
    requires i <= |t|
  {
    (i > 0 && IsWord(t[i - 1])) != (i < |t| && IsWord(t[i]))
  }

  /** The text from `i` to `j` is letter, one or more letters or digits, a dash at `d`, one or more
      digits. */
  predicate Shaped(t: string, i: nat, d: nat, j: nat) {
    && i + 2 <= d && d + 1 < j <= |t|
    && IsUpper(t[i]) && (forall p | i < p < d :: IsKeyChar(t[p]))
    && t[d] == '-' && (forall p | d < p < j :: IsDigit(t[p]))
  }

  /** A word-bounded key from `i` to `j`: one way for the pattern to match, with any choice of the
      repetitions. */
  ghost predicate Occurs(t: string, i: nat, j: nat) {
    i <= |t| && j <= |t| && Boundary(t, i) && Boundary(t, j) && exists d: nat :: Shaped(t, i, d, j)
  }

  // ------------------------------------------------------------------ no choice and no overlap

  /** Where a key starts, it can end in one place only: backtracking never finds another match. */
  lemma EndUnique(t: string, i: nat, j1: nat, j2: nat)
    requires Occurs(t, i, j1) && Occurs(t, i, j2)
    ensures j1 == j2
  {
    var d1: nat :| Shaped(t, i, d1, j1);
    var d2: nat :| Shaped(t, i, d2, j2);
    assert !IsKeyChar('-');
    assert d1 == d2;
  }

  /** No key starts inside another one. */
  lemma NoOverlap(t: string, i1: nat, j1: nat, i2: nat, j2: nat)
    requires Occurs(t, i1, j1) && Occurs(t, i2, j2) && i1 < i2
    ensures j1 <= i2
  {
    var d: nat :| Shaped(t, i1, d, j1);
    assert IsUpper(t[i2]);
  }

  // ------------------------------------------------------------------ scanning

  function KeyRun(t: string, i: nat): (p: nat)
    requires i <= |t|
    ensures i <= p <= |t| && (forall q | i <= q < p :: IsKeyChar(t[q])) && (p < |t| ==> !IsKeyChar(t[p]))
    decreases |t| - i
  {
    if i == |t| || !IsKeyChar(t[i]) then i else KeyRun(t, i + 1)
  }

  function DigitRun(t: string, i: nat): (p: nat)
    requires i <= |t|
    ensures i <= p <= |t| && (forall q | i <= q < p :: IsDigit(t[q])) && (p < |t| ==> !IsDigit(t[p]))
    decreases |t| - i
  {
    if i == |t| || !IsDigit(t[i]) then i else DigitRun(t, i + 1)
  }

  /** The end of the key starting at `i`, taking every repetition as long as possible; zero if none. */
  function MatchAt(t: string, i: nat): (j: nat)
    requires i <= |t|
    ensures j == 0 || i < j <= |t|
  {
    if i == |t| || !Boundary(t, i) || !IsUpper(t[i]) then 0
    else
      var d := KeyRun(t, i + 1);
      if d < i + 2 || d == |t| || t[d] != '-' then 0
      else
        var j := DigitRun(t, d + 1);
        if j == d + 1 || !Boundary(t, j) then 0 else j
  }

  lemma MatchAtIff(t: string, i: nat, j: nat)
    requires i <= |t|
    ensures Occurs(t, i, j) <==> j > 0 && MatchAt(t, i) == j
  {
    if Occurs(t, i, j) {
      var d: nat :| Shaped(t, i, d, j);
      assert !IsKeyChar('-');
      assert KeyRun(t, i + 1) == d;
      assert DigitRun(t, d + 1) == j;
    }
    if j > 0 && MatchAt(t, i) == j {
      assert Shaped(t, i, KeyRun(t, i + 1), j);
    }
  }

  /** The matches from a position on: try here, else one further; after a match go on at its end. */
  function Scan(t: string, from: nat): (spots: seq<(nat, nat)>)
    requires from <= |t|
    ensures forall n | 0 <= n < |spots| :: spots[n].0 < spots[n].1 <= |t|
    decreases |t| - from
  {
    if from == |t| then []
    else
      var j := MatchAt(t, from);
      if j > 0 then [(from, j)] + Scan(t, j) else Scan(t, from + 1)
  }

  /** What the scan finds are occurrences, in order and apart. */
  lemma {:induction false} ScanIsSound(t: string, from: nat)
    requires from <= |t|
    ensures forall m | m in Scan(t, from) :: from <= m.0 && Occurs(t, m.0, m.1)
    ensures forall a, b | 0 <= a < b < |Scan(t, from)| :: Scan(t, from)[a].1 <= Scan(t, from)[b].0
    decreases |t| - from
  {
    if from < |t| {
      var j := MatchAt(t, from);
      if j > 0 {
        MatchAtIff(t, from, j);
        ScanIsSound(t, j);
      } else {
        ScanIsSound(t, from + 1);
      }
    }
  }

  /** And it finds every occurrence, although it never looks back. */
  lemma {:induction false} ScanIsComplete(t: string, from: nat, i: nat, j: nat)
    requires from <= i && Occurs(t, i, j)
    ensures (i, j) in Scan(t, from)
    decreases |t| - from
  {
    MatchAtIff(t, i, j);
    var e := MatchAt(t, from);
    if i > from {
      if e > 0 {
        MatchAtIff(t, from, e);
        NoOverlap(t, from, e, i, j);
        ScanIsComplete(t, e, i, j);
      } else {
        ScanIsComplete(t, from + 1, i, j);
      }
    }
  }

  // ------------------------------------------------------------------ excluding number zero

  /** The exclusion pattern: a dash and nothing but zeros to the end. */
  predicate Excluded(m: string) {
    exists p | 0 <= p < |m| - 1 :: m[p] == '-' && forall q | p < q < |m| :: m[q] == '0'
  }

  lemma {:induction false} ZeroIff(s: string)
    requires s != "" && forall q | 0 <= q < |s| :: IsDigit(s[q])
    ensures ParseNat(s).Some? && (ParseNat(s).value == 0 <==> forall q | 0 <= q < |s| :: s[q] == '0')
  {
    if |s| > 1 {
      ZeroIff(s[..|s| - 1]);
    }
  }

  /** Of the keys, exactly those numbered zero are excluded. */
  lemma ExcludedIff(m: string, d: nat)
    requires Shaped(m, 0, d, |m|)
    ensures Excluded(m) <==> ParseNat(m[d + 1..]) == Some(0)
  {
    var digits := m[d + 1..];
    ZeroIff(digits);
    if Excluded(m) {
      var p :| 0 <= p < |m| - 1 && m[p] == '-' && forall q | p < q < |m| :: m[q] == '0';
      assert !IsKeyChar('-') && !IsDigit('-');
      assert p == d;
    }
    if forall q | 0 <= q < |digits| :: digits[q] == '0' {
      forall q | d < q < |m| ensures m[q] == '0' {
        assert m[q] == digits[q - d - 1];
      }
      assert m[d] == '-';
    }
  }

  // ------------------------------------------------------------------ extraction

  /** Without later repetitions. */
  function FirstOnce(xs: seq<string>): seq<string> {
    if xs == [] then []
    else
      var front, last := FirstOnce(xs[..|xs| - 1]), xs[|xs| - 1];
      if last in front then front else front + [last]
  }

  predicate IsFirst(xs: seq<string>, i: nat) {
    i < |xs| && xs[i] !in xs[..i]
  }

  /** The same elements, none twice, ordered by first occurrence. */
  lemma {:induction false} FirstOnceLaws(xs: seq<string>)
    ensures forall x :: x in FirstOnce(xs) <==> x in xs
    ensures forall a, b | 0 <= a < b < |FirstOnce(xs)| :: FirstOnce(xs)[a] != FirstOnce(xs)[b]
    ensures forall i: nat, j: nat, a: nat, b: nat | i < j && IsFirst(xs, i) && IsFirst(xs, j)
              && a < |FirstOnce(xs)| && b < |FirstOnce(xs)| && FirstOnce(xs)[a] == xs[i]
              && FirstOnce(xs)[b] == xs[j] :: a < b
  {
    if xs != [] {
      var front, last := xs[..|xs| - 1], xs[|xs| - 1];
      FirstOnceLaws(front);
      assert xs == front + [last];
      forall i: nat | i < |front| && IsFirst(xs, i) ensures IsFirst(front, i) {
        assert front[..i] == xs[..i];
      }
    }
  }

  function Kept(ms: seq<string>): seq<string> {
    if ms == [] then []
    else Kept(ms[..|ms| - 1]) + (if Excluded(ms[|ms| - 1]) then [] else [ms[|ms| - 1]])
  }

  function Matches(t: string): seq<string> {
    var spots := Scan(t, 0);
    seq(|spots|, i requires 0 <= i < |spots| => t[spots[i].0..spots[i].1])
  }

  function Candidates(texts: seq<string>): seq<string> {
    if texts == [] then [] else Candidates(texts[..|texts| - 1]) + Kept(Matches(texts[|texts| - 1]))
  }

  lemma KeptStep(xs: seq<string>, ms: seq<string>, b: nat)
    requires b < |ms|
    ensures FirstOnce(xs + Kept(ms[..b + 1])) ==
            var sofar := FirstOnce(xs + Kept(ms[..b]));
            if Excluded(ms[b]) || ms[b] in sofar then sofar else sofar + [ms[b]]
  {
    assert ms[..b + 1][..b] == ms[..b];
    var before, after := xs + Kept(ms[..b]), xs + Kept(ms[..b + 1]);
    if Excluded(ms[b]) {
      assert after == before;
    } else {
      assert after == before + [ms[b]];
      assert after[..|before|] == before;
    }
  }

  /** The matches of one text, appended where new. */
  method Collect(matches: seq<string>, found: seq<string>, marked: set<string>, ghost xs: seq<string>)
    returns (keys: seq<string>, seen: set<string>)
    requires found == FirstOnce(xs) && marked == set k | k in found
    ensures keys == FirstOnce(xs + Kept(matches)) && seen == set k | k in keys
  {
    keys, seen := found, marked;
    assert xs + Kept(matches[..0]) == xs;
    for b := 0 to |matches|
      invariant keys == FirstOnce(xs + Kept(matches[..b]))
      invariant seen == set k | k in keys
    {
      KeptStep(xs, matches, b);
      var m := matches[b];
      if m !in seen && !Excluded(m) {
        keys := keys + [m];
        seen := seen + {m};
      }
    }
    assert matches[..|matches|] == matches;
  }

  method ExtractJiraKeys(texts: seq<string>) returns (keys: seq<string>)
    ensures keys == FirstOnce(Candidates(texts))
    ensures forall key :: key in keys <==> exists t :: t in texts && IsKeyOf(t, key)
    ensures forall a, b | 0 <= a < b < |keys| :: keys[a] != keys[b]
    ensures InFirstOrder(texts, keys)
  {
    keys := [];
    var seen: set<string> := {};
    for a := 0 to |texts|
      invariant keys == FirstOnce(Candidates(texts[..a]))
      invariant seen == set k | k in keys
    {
      assert texts[..a + 1][..a] == texts[..a];
      keys, seen := Collect(Matches(texts[a]), keys, seen, Candidates(texts[..a]));
    }
    assert texts[..|texts|] == texts;
    forall key ensures key in keys <==> exists t :: t in texts && IsKeyOf(t, key) {
      ExtractedIff(texts, key);
    }
    FirstOnceLaws(Candidates(texts));
    ExtractedInOrder(texts);
  }

  // ------------------------------------------------------------------ the declarative reading

  /** A word-bounded key of the text, with a number other than zero. */
  ghost predicate IsKeyOf(t: string, key: string) {
    exists i: nat, j: nat, d: nat | i <= j <= |t| ::
      Occurs(t, i, j) && t[i..j] == key && Shaped(key, 0, d, |key|) && ParseNat(key[d + 1..]) != Some(0)
  }

  lemma {:induction false} KeptIff(ms: seq<string>, m: string)
    ensures m in Kept(ms) <==> m in ms && !Excluded(m)
  {
    if ms != [] {
      KeptIff(ms[..|ms| - 1], m);
      assert ms == ms[..|ms| - 1] + [ms[|ms| - 1]];
    }
  }

  lemma OccurrenceIsShaped(t: string, i: nat, j: nat) returns (d: nat)
    requires Occurs(t, i, j)
    ensures i <= j <= |t| && Shaped(t[i..j], 0, d, j - i)
  {
    var e: nat :| Shaped(t, i, e, j);
    d := e - i;
  }

  lemma CandidateIsKey(t: string, n: nat)
    requires n < |Matches(t)| && !Excluded(Matches(t)[n])
    ensures IsKeyOf(t, Matches(t)[n])
  {
    ScanIsSound(t, 0);
    var (i, j) := Scan(t, 0)[n];
    assert (i, j) in Scan(t, 0);
    var d := OccurrenceIsShaped(t, i, j);
    ExcludedIff(t[i..j], d);
  }

  lemma KeyIsCandidate(t: string, key: string)
    requires IsKeyOf(t, key)
    ensures key in Matches(t) && !Excluded(key)
  {
    var i: nat, j: nat, d: nat :| i <= j <= |t| && Occurs(t, i, j) && t[i..j] == key
      && Shaped(key, 0, d, |key|) && ParseNat(key[d + 1..]) != Some(0);
    ExcludedIff(key, d);
    ScanIsComplete(t, 0, i, j);
    var n :| 0 <= n < |Scan(t, 0)| && Scan(t, 0)[n] == (i, j);
    assert Matches(t)[n] == key;
  }

  lemma CandidateIff(t: string, key: string)
    ensures key in Kept(Matches(t)) <==> IsKeyOf(t, key)
  {
    KeptIff(Matches(t), key);
    if key in Kept(Matches(t)) {
      var n :| 0 <= n < |Matches(t)| && Matches(t)[n] == key;
      CandidateIsKey(t, n);
    }
    if IsKeyOf(t, key) {
      KeyIsCandidate(t, key);
    }
  }

  lemma {:induction false} CandidatesIff(texts: seq<string>, key: string)
    ensures key in Candidates(texts) <==> exists t :: t in texts && IsKeyOf(t, key)
  {
    if texts != [] {
      var front, last := texts[..|texts| - 1], texts[|texts| - 1];
      CandidatesIff(front, key);
      CandidateIff(last, key);
      assert texts == front + [last];
    }
  }

  /** Extraction returns, each once and in order of first occurrence, exactly the keys of the texts
      with a number other than zero. */
  lemma ExtractedIff(texts: seq<string>, key: string)
    ensures key in FirstOnce(Candidates(texts)) <==> exists t :: t in texts && IsKeyOf(t, key)
  {
    FirstOnceLaws(Candidates(texts));
    CandidatesIff(texts, key);
  }

  // ------------------------------------------------------------------ the order of the result

  /** The key occurs in text `a` at position `i`, and counts. */
  ghost predicate OccursAt(texts: seq<string>, key: string, a: nat, i: nat) {
    && a < |texts| && IsKeyOf(texts[a], key)
    && exists j: nat :: i <= j <= |texts[a]| && Occurs(texts[a], i, j) && texts[a][i..j] == key
  }

  predicate Earlier(a: nat, i: nat, b: nat, j: nat) {
    a < b || (a == b && i < j)
  }

  /** The key's first occurrence: least text, then least position. */
  ghost predicate FirstAt(texts: seq<string>, key: string, a: nat, i: nat) {
    && OccursAt(texts, key, a, i)
    && forall b: nat, j: nat | OccursAt(texts, key, b, j) :: !Earlier(b, j, a, i)
  }

  /** A candidate together with the place it was found. */
  datatype Spot = Spot(text: nat, start: nat, key: string)

  function TextSpots(a: nat, t: string, ms: seq<(nat, nat)>): seq<Spot>
    requires forall m | m in ms :: m.0 <= m.1 <= |t|
  {
    if ms == [] then []
    else
      var m := ms[|ms| - 1];
      assert m in ms;
      TextSpots(a, t, ms[..|ms| - 1]) + (if Excluded(t[m.0..m.1]) then [] else [Spot(a, m.0, t[m.0..m.1])])
  }

  function Spots(texts: seq<string>): seq<Spot> {
    if texts == [] then []
    else
      var n := |texts| - 1;
      Spots(texts[..n]) + TextSpots(n, texts[n], Scan(texts[n], 0))
  }

  function Keys(spots: seq<Spot>): seq<string> {
    seq(|spots|, n requires 0 <= n < |spots| => spots[n].key)
  }

  function Cut(t: string, ms: seq<(nat, nat)>): seq<string>
    requires forall m | m in ms :: m.0 <= m.1 <= |t|
  {
    seq(|ms|, n requires 0 <= n < |ms| => assert ms[n] in ms; t[ms[n].0..ms[n].1])
  }

  lemma {:induction false} TextSpotsAreKept(a: nat, t: string, ms: seq<(nat, nat)>)
    requires forall m | m in ms :: m.0 <= m.1 <= |t|
    ensures Keys(TextSpots(a, t, ms)) == Kept(Cut(t, ms))
  {
    if ms != [] {
      var front := ms[..|ms| - 1];
      TextSpotsAreKept(a, t, front);
      assert Cut(t, ms)[..|ms| - 1] == Cut(t, front);
      assert Cut(t, ms)[|ms| - 1] == t[ms[|ms| - 1].0..ms[|ms| - 1].1];
    }
  }

  lemma KeysAppend(front: seq<Spot>, back: seq<Spot>)
    ensures Keys(front + back) == Keys(front) + Keys(back)
  {
  }

  lemma CutIsMatches(t: string)
    ensures Cut(t, Scan(t, 0)) == Matches(t)
  {
  }

  lemma {:induction false} SpotsAreCandidates(texts: seq<string>)
    ensures Keys(Spots(texts)) == Candidates(texts)
  {
    if texts != [] {
      var n := |texts| - 1;
      SpotsAreCandidates(texts[..n]);
      TextSpotsAreKept(n, texts[n], Scan(texts[n], 0));
      CutIsMatches(texts[n]);
      KeysAppend(Spots(texts[..n]), TextSpots(n, texts[n], Scan(texts[n], 0)));
    }
  }

  lemma {:induction false} TextSpotsAre(a: nat, t: string, ms: seq<(nat, nat)>)
    requires forall m | m in ms :: m.0 <= m.1 <= |t|
    requires forall n, k | 0 <= n < k < |ms| :: ms[n].0 < ms[k].0
    ensures forall spot | spot in TextSpots(a, t, ms) ::
              && spot.text == a && !Excluded(spot.key)
              && exists j: nat :: (spot.start, j) in ms && spot.start <= j <= |t| && t[spot.start..j] == spot.key
    ensures forall m | m in ms && !Excluded(t[m.0..m.1]) :: Spot(a, m.0, t[m.0..m.1]) in TextSpots(a, t, ms)
    ensures forall n, k | 0 <= n < k < |TextSpots(a, t, ms)| ::
              TextSpots(a, t, ms)[n].start < TextSpots(a, t, ms)[k].start
  {
    if ms != [] {
      var front, last := ms[..|ms| - 1], ms[|ms| - 1];
      TextSpotsAre(a, t, front);
      assert ms == front + [last];
    }
  }

  lemma ScanStartsIncrease(t: string)
    ensures forall n, k | 0 <= n < k < |Scan(t, 0)| :: Scan(t, 0)[n].0 < Scan(t, 0)[k].0
    ensures forall m | m in Scan(t, 0) :: m.0 <= m.1 <= |t|
  {
    ScanIsSound(t, 0);
  }

  lemma SpotOccurs(texts: seq<string>, a: nat, spot: Spot)
    requires a < |texts| && forall m | m in Scan(texts[a], 0) :: m.0 <= m.1 <= |texts[a]|
    requires spot in TextSpots(a, texts[a], Scan(texts[a], 0))
    ensures spot.text == a && OccursAt(texts, spot.key, a, spot.start)
  {
    var t := texts[a];
    ScanStartsIncrease(t);
    TextSpotsAre(a, t, Scan(t, 0));
    var j: nat :| (spot.start, j) in Scan(t, 0) && spot.start <= j <= |t| && t[spot.start..j] == spot.key;
    var n :| 0 <= n < |Scan(t, 0)| && Scan(t, 0)[n] == (spot.start, j);
    assert Matches(t)[n] == spot.key;
    CandidateIsKey(t, n);
    OccursWhereScanned(t, n);
  }

  lemma OccursWhereScanned(t: string, n: nat)
    requires n < |Scan(t, 0)|
    ensures Occurs(t, Scan(t, 0)[n].0, Scan(t, 0)[n].1)
  {
    ScanIsSound(t, 0);
    assert Scan(t, 0)[n] in Scan(t, 0);
  }

  lemma OccurrenceIsSpot(texts: seq<string>, key: string, a: nat, i: nat)
    requires OccursAt(texts, key, a, i) && forall m | m in Scan(texts[a], 0) :: m.0 <= m.1 <= |texts[a]|
    ensures Spot(a, i, key) in TextSpots(a, texts[a], Scan(texts[a], 0))
  {
    var t := texts[a];
    ScanStartsIncrease(t);
    TextSpotsAre(a, t, Scan(t, 0));
    var j: nat :| i <= j <= |t| && Occurs(t, i, j) && t[i..j] == key;
    ScanIsComplete(t, 0, i, j);
    KeyIsCandidate(t, key);
  }

  predicate InPlaceOrder(spots: seq<Spot>) {
    forall n, k | 0 <= n < k < |spots| :: Earlier(spots[n].text, spots[n].start, spots[k].text, spots[k].start)
  }

  lemma OccursInFront(texts: seq<string>, spot: Spot)
    requires texts != [] && spot.text < |texts| - 1
    ensures OccursAt(texts, spot.key, spot.text, spot.start)
       <==> OccursAt(texts[..|texts| - 1], spot.key, spot.text, spot.start)
  {
    assert texts[..|texts| - 1][spot.text] == texts[spot.text];
  }

  /** All spots are all counting occurrences ... */
  lemma {:induction false} SpotIff(texts: seq<string>, spot: Spot)
    ensures spot in Spots(texts) <==> OccursAt(texts, spot.key, spot.text, spot.start)
  {
    if texts != [] {
      var a := |texts| - 1;
      var front, last := Spots(texts[..a]), TextSpots(a, texts[a], Scan(texts[a], 0));
      SpotIff(texts[..a], spot);
      ScanStartsIncrease(texts[a]);
      if spot.text < a {
        OccursInFront(texts, spot);
      }
      if spot in last {
        SpotOccurs(texts, a, spot);
      }
      if spot.text == a && OccursAt(texts, spot.key, a, spot.start) {
        OccurrenceIsSpot(texts, spot.key, a, spot.start);
      }
    }
  }

  lemma PlaceOrderAppends(front: seq<Spot>, last: seq<Spot>, a: nat)
    requires InPlaceOrder(front) && InPlaceOrder(last)
    requires (forall n | 0 <= n < |front| :: front[n].text < a) && (forall n | 0 <= n < |last| :: last[n].text == a)
    ensures InPlaceOrder(front + last)
  {
  }

  /** ... in order of text and position. */
  lemma {:induction false} SpotsInOrder(texts: seq<string>)
    ensures InPlaceOrder(Spots(texts)) && forall n | 0 <= n < |Spots(texts)| :: Spots(texts)[n].text < |texts|
  {
    if texts != [] {
      var a := |texts| - 1;
      var front, last := Spots(texts[..a]), TextSpots(a, texts[a], Scan(texts[a], 0));
      SpotsInOrder(texts[..a]);
      ScanStartsIncrease(texts[a]);
      TextSpotsAre(a, texts[a], Scan(texts[a], 0));
      forall n | 0 <= n < |last| ensures last[n].text == a {
        assert last[n] in last;
      }
      PlaceOrderAppends(front, last, a);
    }
  }

  lemma {:induction false} FirstIndex(xs: seq<string>, x: string) returns (n: nat)
    requires x in xs
    ensures IsFirst(xs, n) && xs[n] == x
  {
    var front := xs[..|xs| - 1];
    if x in front {
      n := FirstIndex(front, x);
      assert front[..n] == xs[..n];
    } else {
      n := |xs| - 1;
    }
  }

  lemma NoneBeforeFirst(xs: seq<string>, n: nat)
    requires IsFirst(xs, n)
    ensures forall m | 0 <= m < n :: xs[m] != xs[n]
  {
    forall m | 0 <= m < n ensures xs[m] != xs[n] {
      assert xs[..n][m] == xs[m];
    }
  }

  lemma SpotIndex(texts: seq<string>, key: string, a: nat, i: nat) returns (m: nat)
    requires OccursAt(texts, key, a, i)
    ensures m < |Spots(texts)| && Spots(texts)[m] == Spot(a, i, key)
    ensures |Candidates(texts)| == |Spots(texts)| && Candidates(texts)[m] == key
  {
    SpotIff(texts, Spot(a, i, key));
    SpotsAreCandidates(texts);
    m :| 0 <= m < |Spots(texts)| && Spots(texts)[m] == Spot(a, i, key);
  }

  lemma SpotsOrdered(texts: seq<string>, n: nat, m: nat)
    requires n < m < |Spots(texts)|
    ensures Earlier(Spots(texts)[n].text, Spots(texts)[n].start, Spots(texts)[m].text, Spots(texts)[m].start)
  {
    SpotsInOrder(texts);
  }

  /** No occurrence of the key comes before the spot where it first stands among the candidates. */
  lemma NoneEarlier(texts: seq<string>, n: nat, b: nat, j: nat)
    requires IsFirst(Candidates(texts), n) && OccursAt(texts, Candidates(texts)[n], b, j)
    ensures n < |Spots(texts)| && !Earlier(b, j, Spots(texts)[n].text, Spots(texts)[n].start)
  {
    var m := SpotIndex(texts, Candidates(texts)[n], b, j);
    NoneBeforeFirst(Candidates(texts), n);
    assert n <= m;
    if n < m {
      SpotsOrdered(texts, n, m);
    }
  }

  /** Where a candidate stands first is where its key occurs first. */
  lemma FirstSpot(texts: seq<string>, n: nat)
    requires IsFirst(Candidates(texts), n)
    ensures n < |Spots(texts)| && FirstAt(texts, Candidates(texts)[n], Spots(texts)[n].text, Spots(texts)[n].start)
  {
    SpotsAreCandidates(texts);
    var spot, key := Spots(texts)[n], Candidates(texts)[n];
    SpotIff(texts, spot);
    assert spot in Spots(texts) && spot.key == key;
    forall b: nat, j: nat | OccursAt(texts, key, b, j) ensures !Earlier(b, j, spot.text, spot.start) {
      NoneEarlier(texts, n, b, j);
    }
  }

  /** Every extracted key has a first occurrence, and the result lists the keys in the order of those. */
  ghost predicate InFirstOrder(texts: seq<string>, keys: seq<string>) {
    && (forall key | key in keys :: exists a: nat, i: nat :: FirstAt(texts, key, a, i))
    && forall p, q | 0 <= p < q < |keys| :: AllEarlier(texts, keys[p], keys[q])
  }

  ghost predicate AllEarlier(texts: seq<string>, x: string, y: string) {
    forall a: nat, i: nat, b: nat, j: nat | FirstAt(texts, x, a, i) && FirstAt(texts, y, b, j) :: Earlier(a, i, b, j)
  }

  lemma OrderOfTwo(texts: seq<string>, p: nat, q: nat, a: nat, i: nat, b: nat, j: nat)
    requires p < q < |FirstOnce(Candidates(texts))|
    requires FirstAt(texts, FirstOnce(Candidates(texts))[p], a, i)
    requires FirstAt(texts, FirstOnce(Candidates(texts))[q], b, j)
    ensures Earlier(a, i, b, j)
  {
    var all := Candidates(texts);
    var x, y := FirstOnce(all)[p], FirstOnce(all)[q];
    FirstOnceLaws(all);
    var n := SpotOf(texts, x, a, i);
    var m := SpotOf(texts, y, b, j);
    assert x != y;
    if n < m {
      SpotsOrdered(texts, n, m);
    }
  }

  /** A key with a first occurrence is a candidate, first standing at that very spot. */
  lemma SpotOf(texts: seq<string>, key: string, a: nat, i: nat) returns (n: nat)
    requires FirstAt(texts, key, a, i)
    ensures IsFirst(Candidates(texts), n) && Candidates(texts)[n] == key
    ensures n < |Spots(texts)| && Spots(texts)[n] == Spot(a, i, key)
  {
    var m := SpotIndex(texts, key, a, i);
    n := FirstIndex(Candidates(texts), key);
    FirstSpot(texts, n);
    SpotsAreCandidates(texts);
    assert Spots(texts)[n].key == key;
  }

  lemma HasFirstOccurrence(texts: seq<string>, key: string)
    requires key in FirstOnce(Candidates(texts))
    ensures exists a: nat, i: nat :: FirstAt(texts, key, a, i)
  {
    FirstOnceLaws(Candidates(texts));
    var n := FirstIndex(Candidates(texts), key);
    FirstSpot(texts, n);
    assert FirstAt(texts, key, Spots(texts)[n].text, Spots(texts)[n].start);
  }

  /** The order of the result is that of the first occurrences in the texts. */
  lemma ExtractedInOrder(texts: seq<string>)
    ensures InFirstOrder(texts, FirstOnce(Candidates(texts)))
  {
    var keys := FirstOnce(Candidates(texts));
    forall key | key in keys ensures exists a: nat, i: nat :: FirstAt(texts, key, a, i) {
      HasFirstOccurrence(texts, key);
    }
    forall p, q | 0 <= p < q < |keys| ensures AllEarlier(texts, keys[p], keys[q]) {
      forall a: nat, i: nat, b: nat, j: nat | FirstAt(texts, keys[p], a, i) && FirstAt(texts, keys[q], b, j)
        ensures Earlier(a, i, b, j)
      {
        OrderOfTwo(texts, p, q, a, i, b, j);
      }
    }
  }
}
