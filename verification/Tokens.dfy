/**
 How the gatekeeper splits text (pkg/reef/evolution/server/gate.go:442-467, 551-579):
 into sets of three-word shingles, and into word counts without stop words.
 */
module Tokens {

  /** What the splitting depends on: unicode.ToLower on one character, and the words not counted. */
  datatype Lang = Lang(lower: char -> char, stop: set<string>)

  const PUNCTUATION := ".,;:!?()[]{}\"'`\n\r\t=<>/\\|&*#@$%^~+-_"

  predicate IsSpace(c: char) {
    c in " \t\n\r\U{0B}\U{0C}\U{85}\U{A0}\U{1680}\U{2028}\U{2029}\U{202F}\U{205F}\U{3000}" || '\U{2000}' <= c <= '\U{200A}'
  }

  /** The text as the shingle tokenizer sees it. */
  function Cleaned(lang: Lang, text: string): (r: string)
    ensures |r| == |text|
  {
    seq(|text|, i requires 0 <= i < |text| => if lang.lower(text[i]) in PUNCTUATION then ' ' else lang.lower(text[i]))
  }

  /** The text as the word counter sees it. */
  function Alphanumeric(lang: Lang, text: string): (r: string)
    ensures |r| == |text|
  {
    seq(|text|, i requires 0 <= i < |text| =>
      var c := lang.lower(text[i]); if 'a' <= c <= 'z' || '0' <= c <= '9' || c == ' ' then c else ' ')
  }

  /** The shingle tokenizer blanks the punctuation, the word counter all but letters, digits and blanks; both keep what is left in its place. */
  lemma CharactersKept(lang: Lang, text: string, i: nat)
    requires i < |text|
    ensures var c := lang.lower(text[i]);
      && Cleaned(lang, text)[i] == (
           if c in {'.', ',', ';', ':', '!', '?', '(', ')', '[', ']', '{', '}', '"', '\'', '`', '\n', '\r', '\t',
                    '=', '<', '>', '/', '\\', '|', '&', '*', '#', '@', '$', '%', '^', '~', '+', '-', '_'} then ' ' else c)
      && (Alphanumeric(lang, text)[i] == c <==> 'a' <= c <= 'z' || '0' <= c <= '9' || c == ' ')
      && (Alphanumeric(lang, text)[i] != c ==> Alphanumeric(lang, text)[i] == ' ')
  {
  }

  predicate IsWord(w: string) {
    w != [] && forall c :: c in w ==> !IsSpace(c)
  }

  /** strings.Fields: the maximal runs of non-space characters. */
  function Fields(s: string): (r: seq<string>)
    ensures forall w :: w in r ==> IsWord(w)
    ensures s != [] && !IsSpace(s[0]) ==> r != []
  {
    if s == [] then []
    else
      var rest := Fields(s[1..]);
      if IsSpace(s[0]) then rest
      else if |s| > 1 && !IsSpace(s[1]) then
        assert rest[0] in rest && forall w :: w in rest[1..] ==> w in rest;
        [[s[0]] + rest[0]] + rest[1..]
      else [[s[0]]] + rest
  }

  /** Splitting is decided by its values on words and at spaces. */
  lemma {:induction false} FieldsOfWord(w: string)
    requires IsWord(w)
    ensures Fields(w) == [w]
  {
    if |w| > 1 {
      assert w[1] in w && forall c :: c in w[1..] ==> c in w;
      FieldsOfWord(w[1..]);
      assert [w[0]] + w[1..] == w;
    } else {
      assert w[0] in w && w[1..] == [] && w == [w[0]];
    }
  }

  lemma FieldsStep(s: string)
    requires s != []
    ensures IsSpace(s[0]) ==> Fields(s) == Fields(s[1..])
    ensures !IsSpace(s[0]) && (|s| == 1 || IsSpace(s[1])) ==> Fields(s) == [[s[0]]] + Fields(s[1..])
    ensures !IsSpace(s[0]) && |s| > 1 && !IsSpace(s[1]) ==>
      Fields(s[1..]) != [] && Fields(s) == [[s[0]] + Fields(s[1..])[0]] + Fields(s[1..])[1..]
  {
    hide IsSpace;
  }

  lemma {:induction false} FieldsAtSpace(a: string, c: char, b: string)
    requires IsSpace(c)
    ensures Fields(a + [c] + b) == Fields(a) + Fields(b)
  {
    hide Fields, IsSpace;
    var s := a + [c] + b;
    FieldsStep(s);
    if a == [] {
      NoFields();
      assert s[1..] == b;
    } else {
      FieldsAtSpace(a[1..], c, b);
      FieldsStep(a);
      assert s[1..] == a[1..] + [c] + b;
      if !IsSpace(a[0]) && |a| > 1 && !IsSpace(a[1]) {
        var f, g := Fields(a[1..]), Fields(b);
        assert (f + g)[0] == f[0] && (f + g)[1..] == f[1..] + g;
      }
    }
  }

  lemma NoFields()
    ensures Fields([]) == []
  {
  }

  function Gram(a: string, b: string, c: string): string {
    a + " " + b + " " + c
  }

  function Window(words: seq<string>, i: nat): string
    requires i + 2 < |words|
  {
    Gram(words[i], words[i + 1], words[i + 2])
  }

  /** The three-word windows, as strings. */
  function Shingles(words: seq<string>): set<string> {
    set i | 0 <= i < |words| - 2 :: Window(words, i)
  }

  lemma SpaceAfter(b: string, y: string, k: nat)
    requires ' ' !in b && k < |b + " " + y| && (b + " " + y)[k] == ' '
    ensures k >= |b|
  {
    assert forall j :: 0 <= j < |b| ==> (b + " " + y)[j] == b[j] && b[j] in b;
  }

  lemma SplitAtSpace(a: string, x: string, b: string, y: string)
    requires ' ' !in a && ' ' !in b && a + " " + x == b + " " + y
    ensures a == b && x == y
  {
    var s := a + " " + x;
    SpaceAfter(a, x, |b|);
    SpaceAfter(b, y, |a|);
    assert s[..|a|] == a && s[..|b|] == b;
    assert s[|a| + 1..] == x && s[|b| + 1..] == y;
  }

  /** Joining with spaces loses nothing: equal shingles are the same three words. */
  lemma ShinglesAreWindows(a: string, b: string, c: string, d: string, e: string, f: string)
    requires IsWord(a) && IsWord(b) && IsWord(d) && IsWord(e) && Gram(a, b, c) == Gram(d, e, f)
    ensures a == d && b == e && c == f
  {
    assert Gram(a, b, c) == a + " " + (b + " " + c);
    assert Gram(d, e, f) == d + " " + (e + " " + f);
    SplitAtSpace(a, b + " " + c, d, e + " " + f);
    SplitAtSpace(b, c, e, f);
  }

  lemma WindowIs(words: seq<string>, i: nat)
    requires i + 2 < |words|
    ensures Window(words, i) == words[i] + " " + words[i + 1] + " " + words[i + 2]
  {
  }

  /** tokenize3Grams; the empty set stands for nil. */
  method Tokenize3Grams(lang: Lang, text: string) returns (grams: set<string>)
    ensures grams == Shingles(Fields(Cleaned(lang, text)))
    ensures grams == {} <==> |Fields(Cleaned(lang, text))| < 3
    ensures var words := Fields(Cleaned(lang, text));
      forall gram :: gram in grams <==> exists i :: 0 <= i < |words| - 2 && gram == words[i] + " " + words[i + 1] + " " + words[i + 2]
  {
    hide Window, Fields, Cleaned, IsWord;
    var words := Fields(Cleaned(lang, text));
    grams := {};
    if |words| < 3 {
      return;
    }
    for i := 0 to |words| - 2
      invariant grams == set k | 0 <= k < i :: Window(words, k)
    {
      var gram := words[i] + " " + words[i + 1] + " " + words[i + 2];
      WindowIs(words, i);
      grams := grams + {gram};
    }
    assert Window(words, 0) in grams;
    ShinglesAre(words);
  }

  lemma ShinglesAre(words: seq<string>)
    ensures forall gram :: gram in Shingles(words) <==> exists i :: 0 <= i < |words| - 2 && gram == words[i] + " " + words[i + 1] + " " + words[i + 2]
  {
    forall i | 0 <= i < |words| - 2 ensures Window(words, i) == words[i] + " " + words[i + 1] + " " + words[i + 2] {
      WindowIs(words, i);
    }
  }

  const STOP_WORDS := {
    "the", "a", "an", "is", "are", "was", "were", "be", "been", "being", "have", "has", "had", "do", "does",
    "did", "will", "would", "could", "should", "to", "of", "in", "for", "on", "with", "at", "by", "from", "as",
    "into", "through", "during", "before", "after", "above", "below", "between", "and", "but", "or", "not", "if",
    "then", "else", "when", "where", "why", "how", "all", "each", "every", "both", "few", "more", "most", "other",
    "some", "such", "no", "only", "own", "same", "so", "than", "too", "very", "just", "now"
  }

  predicate Counts(lang: Lang, w: string) {
    w !in lang.stop && |w| > 1
  }

  /** Each counted word with its number of occurrences. */
  ghost function Frequency(lang: Lang, words: seq<string>): (v: map<string, nat>)
    ensures forall w :: w in v ==> v[w] > 0
  {
    map w | w in words && Counts(lang, w) :: multiset(words)[w]
  }

  lemma FrequencyOfNone(lang: Lang)
    ensures Frequency(lang, []) == map[]
  {
  }

  lemma FrequencySnoc(lang: Lang, words: seq<string>, w: string)
    ensures var v := Frequency(lang, words);
      Frequency(lang, words + [w]) == if Counts(lang, w) then v[w := (if w in v then v[w] else 0) + 1] else v
  {
    var more := words + [w];
    assert forall x :: x in more <==> x in words || x == w;
    assert multiset(more) == multiset(words) + multiset{w};
    assert w !in words ==> multiset(words)[w] == 0;
  }

  /** wordFreqVector */
  method WordFreqVector(lang: Lang, text: string) returns (v: map<string, nat>)
    ensures v == Frequency(lang, Fields(Alphanumeric(lang, text)))
    ensures var words := Fields(Alphanumeric(lang, text));
      && (forall w :: w in v <==> w in words && w !in lang.stop && |w| > 1)
      && forall w :: w in v ==> v[w] == multiset(words)[w]
  {
    hide Fields, Alphanumeric, Frequency;
    var words := Fields(Alphanumeric(lang, text));
    v := map[];
    FrequencyOfNone(lang);
    for i := 0 to |words|
      invariant v == Frequency(lang, words[..i])
    {
      assert words[..i + 1] == words[..i] + [words[i]];
      FrequencySnoc(lang, words[..i], words[i]);
      var w := words[i];
      if w in lang.stop || |w| <= 1 {
        continue;
      }
      v := v[w := (if w in v then v[w] else 0) + 1];
    }
    assert words[..|words|] == words;
    FrequencyIs(lang, words);
  }

  lemma FrequencyIs(lang: Lang, words: seq<string>)
    ensures forall w :: w in Frequency(lang, words) <==> w in words && w !in lang.stop && |w| > 1
    ensures forall w :: w in Frequency(lang, words) ==> Frequency(lang, words)[w] == multiset(words)[w]
  {
  }
}
