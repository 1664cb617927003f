/** Letter case of ASCII text. */
module Text {

  function UpperChar(c: char): char {
    if 'a' <= c <= 'z' then c - 'a' + 'A' else c
  }

  function LowerChar(c: char): char {
    if 'A' <= c <= 'Z' then c - 'A' + 'a' else c
  }

  function Upper(s: string): string {
    seq(|s|, i requires 0 <= i < |s| => UpperChar(s[i]))
  }

  function Lower(s: string): string {
    seq(|s|, i requires 0 <= i < |s| => LowerChar(s[i]))
  }

  /** The same text but for letter case. */
  predicate SameText(a: string, b: string) {
    && |a| == |b|
    && forall i | 0 <= i < |a| ::
         || a[i] == b[i]
         || ('a' <= a[i] <= 'z' && a[i] as int - b[i] as int == 32)
         || ('a' <= b[i] <= 'z' && b[i] as int - a[i] as int == 32)
  }

  lemma UpperIs(s: string, word: string)
    requires forall i | 0 <= i < |word| :: !('a' <= word[i] <= 'z')
    ensures Upper(s) == word <==> SameText(s, word)
  {
    if SameText(s, word) {
      assert |Upper(s)| == |word| && forall i | 0 <= i < |word| :: Upper(s)[i] == word[i];
    }
    if Upper(s) == word {
      forall i | 0 <= i < |s| ensures UpperChar(s[i]) == word[i] {
        assert Upper(s)[i] == word[i];
      }
    }
  }

  lemma LowerIs(s: string, word: string)
    requires forall i | 0 <= i < |word| :: !('A' <= word[i] <= 'Z')
    ensures Lower(s) == word <==> SameText(s, word)
  {
    if SameText(s, word) {
      assert |Lower(s)| == |word| && forall i | 0 <= i < |word| :: Lower(s)[i] == word[i];
    }
    if Lower(s) == word {
      forall i | 0 <= i < |s| ensures LowerChar(s[i]) == word[i] {
        assert Lower(s)[i] == word[i];
      }
    }
  }
}
