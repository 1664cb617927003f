/** GitHub resource ids: printed when a conversation is tracked, parsed when it is reloaded. */
module ResourceIds {
  import opened Options

  // ------------------------------------------------------------------ decimal numbers

  predicate IsDigit(c: char) {
    '0' <= c <= '9'
  }

  function Digit(n: nat): (c: char)
    requires n < 10
    ensures IsDigit(c)
  {
    '0' + n as char
  }

  function PrintNat(n: nat): (s: string)
    ensures s != [] && forall i | 0 <= i < |s| :: IsDigit(s[i])
  {
    if n < 10 then [Digit(n)] else PrintNat(n / 10) + [Digit(n % 10)]
  }

  function PrintInt(n: int): string {
    if n < 0 then "-" + PrintNat(-n) else PrintNat(n)
  }

  function ParseNat(s: string): Option<nat> {
    if s == "" || !IsDigit(s[|s| - 1]) then None
    else
      var last := (s[|s| - 1] - '0') as nat;
      if |s| == 1 then Some(last)
      else
        match ParseNat(s[..|s| - 1])
        case Some(high) => Some(10 * high + last)
        case None => None
  }

  /** Decimal integers with an optional sign. */
  function ParseInt(s: string): Option<int> {
    if s != "" && (s[0] == '+' || s[0] == '-') then
      match ParseNat(s[1..])
      case Some(n) => var v: int := n; Some(if s[0] == '-' then -v else v)
      case None => None
    else
      match ParseNat(s)
      case Some(n) => Some(n)
      case None => None
  }

  /** Numbers print in decimal, most significant digit first, without leading zeros. */
  lemma PrintsDecimal(high: nat, d: nat)
    requires d < 10
    ensures PrintNat(d) == ["0123456789"[d]]
    ensures high > 0 ==> PrintNat(10 * high + d) == PrintNat(high) + ["0123456789"[d]]
    ensures PrintInt(-10 * high - 1) == "-" + PrintNat(10 * high + 1)
  {
  }

  lemma {:induction false} NatRoundTrip(n: nat)
    ensures ParseNat(PrintNat(n)) == Some(n)
  {
    if n >= 10 {
      NatRoundTrip(n / 10);
      assert PrintNat(n)[..|PrintNat(n)| - 1] == PrintNat(n / 10);
    }
  }

  lemma IntRoundTrip(n: int)
    ensures ParseInt(PrintInt(n)) == Some(n)
  {
    var digits := PrintNat(if n < 0 then -n else n);
    NatRoundTrip(if n < 0 then -n else n);
    if n < 0 {
      assert PrintInt(n)[0] == '-' && PrintInt(n)[1..] == digits;
    } else {
      assert IsDigit(PrintInt(n)[0]);
    }
  }

  lemma NoHashInInt(n: int)
    ensures '#' !in PrintInt(n)
  {
    var digits := PrintNat(if n < 0 then -n else n);
    assert '#' !in digits;
  }

  // ------------------------------------------------------------------ searching a string

  /** The first position of `c`, or the length. */
  function First(s: string, c: char): (i: nat)
    ensures i <= |s| && c !in s[..i] && (i < |s| ==> s[i] == c)
  {
    if s == "" || s[0] == c then 0
    else
      assert s == [s[0]] + s[1..];
      1 + First(s[1..], c)
  }

  /** One past the last position of `c`, or zero. */
  function PastLast(s: string, c: char): (i: nat)
    ensures i <= |s| && c !in s[i..] && (i > 0 ==> s[i - 1] == c)
  {
    if s == "" || s[|s| - 1] == c then |s|
    else
      assert s == s[..|s| - 1] + [s[|s| - 1]];
      PastLast(s[..|s| - 1], c)
  }

  // ------------------------------------------------------------------ resource ids

  datatype GithubRef = GithubRef(owner: string, repo: string, number: Option<int>)

  function Print(owner: string, repo: string, number: int): string {
    owner + "/" + repo + "#" + PrintInt(number)
  }

  /** What the reload recovers: split at the last '#', then at the first '/', which must not come first. */
  function Parse(id: string): Option<GithubRef> {
    var hash := PastLast(id, '#');
    if hash == 0 then None
    else
      var repoPart := id[..hash - 1];
      var slash := First(repoPart, '/');
      if slash == 0 || slash == |repoPart| then None
      else Some(GithubRef(repoPart[..slash], repoPart[slash + 1..], ParseInt(id[hash..])))
  }

  lemma LastHash(left: string, right: string)
    requires '#' !in right
    ensures PastLast(left + "#" + right, '#') == |left| + 1
  {
    var s := left + "#" + right;
    assert s[|left|] == '#';
    assert s[|left| + 1..] == right;
  }

  lemma FirstSlash(owner: string, repo: string)
    ensures var slash := First(owner + "/" + repo, '/');
            if '/' in owner then slash < |owner| else slash == |owner|
  {
    var left := owner + "/" + repo;
    assert left[|owner|] == '/' && left[..|owner|] == owner;
    if '/' in owner {
      var i :| 0 <= i < |owner| && owner[i] == '/';
      assert left[i] == '/';
    }
  }

  lemma ParseSplit(left: string, digits: string)
    requires '#' !in digits
    ensures var slash := First(left, '/');
            Parse(left + "#" + digits) ==
              if slash == 0 || slash == |left| then None
              else Some(GithubRef(left[..slash], left[slash + 1..], ParseInt(digits)))
  {
    var id := left + "#" + digits;
    LastHash(left, digits);
    assert id[..|left|] == left && id[|left| + 1..] == digits;
  }

  /** What the reload makes of a printed id, for any owner. */
  lemma ParsePrinted(owner: string, repo: string, number: int)
    ensures var parsed := Parse(Print(owner, repo, number));
            if owner == "" then parsed == None
            else if '/' in owner then parsed.Some? ==> |parsed.value.owner| < |owner|
            else parsed == Some(GithubRef(owner, repo, Some(number)))
  {
    var left, digits := owner + "/" + repo, PrintInt(number);
    IntRoundTrip(number);
    NoHashInInt(number);
    FirstSlash(owner, repo);
    assert Print(owner, repo, number) == left + "#" + digits;
    ParseSplit(left, digits);
    if '/' !in owner {
      assert left[..|owner|] == owner && left[|owner| + 1..] == repo;
    }
  }

  /** The round trip recovers owner, repository and number exactly when the owner is non-empty and
      has no '/'; the repository may contain both separators. */
  lemma GithubRoundTripIff(owner: string, repo: string, number: int)
    ensures Parse(Print(owner, repo, number)) == Some(GithubRef(owner, repo, Some(number)))
       <==> owner != "" && '/' !in owner
  {
    ParsePrinted(owner, repo, number);
  }

  /** Hence two resources with well-formed owners never share an id. */
  lemma GithubIdInjective(o1: string, r1: string, n1: int, o2: string, r2: string, n2: int)
    requires o1 != "" && '/' !in o1 && o2 != "" && '/' !in o2
    requires Print(o1, r1, n1) == Print(o2, r2, n2)
    ensures o1 == o2 && r1 == r2 && n1 == n2
  {
    GithubRoundTripIff(o1, r1, n1);
    GithubRoundTripIff(o2, r2, n2);
  }
}
