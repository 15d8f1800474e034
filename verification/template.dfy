/** `_render_template` of rules/actions.py: one left-to-right pass of the pattern {\w+}. */
module Template {
  datatype Token = Lit(c: char) | Hole(name: string) {
    function Source(): string {
      match this
      case Lit(c) => [c]
      case Hole(name) => "{" + name + "}"
    }

    function Size(): nat {
      if Hole? then |name| + 2 else 1
    }

    function Expand(dict: map<string, string>): string {
      if Hole? && name in dict then dict[name] else Source()
    }
  }

  /** End of the run of word characters that starts at i. */
  function WordEnd(word: char -> bool, t: string, i: nat): (e: nat)
    requires i <= |t|
    ensures i <= e <= |t|
    ensures forall k :: i <= k < e ==> word(t[k])
    ensures e < |t| ==> !word(t[e])
    decreases |t| - i
  {
    if i < |t| && word(t[i]) then WordEnd(word, t, i + 1) else i
  }

  predicate HoleAt(word: char -> bool, t: string, i: nat)
    requires i < |t|
  {
    t[i] == '{' &&
    var e := WordEnd(word, t, i + 1);
    i + 1 < e < |t| && t[e] == '}'
  }

  /** The token the scan takes at i: a hole if the pattern matches there, else one character. */
  function TokenAt(word: char -> bool, t: string, i: nat): (tok: Token)
    requires i < |t|
    ensures tok.Hole? <==> HoleAt(word, t, i)
    ensures i < i + tok.Size() <= |t|
  {
    if HoleAt(word, t, i) then Hole(t[i + 1..WordEnd(word, t, i + 1)]) else Lit(t[i])
  }

  function TokensFrom(word: char -> bool, t: string, i: nat): seq<Token>
    requires i <= |t|
    decreases |t| - i
  {
    if i == |t| then [] else
      var tok := TokenAt(word, t, i);
      [tok] + TokensFrom(word, t, i + tok.Size())
  }

  function Sources(ts: seq<Token>): string {
    if ts == [] then "" else ts[0].Source() + Sources(ts[1..])
  }

  function Expansions(ts: seq<Token>, dict: map<string, string>): string {
    if ts == [] then "" else ts[0].Expand(dict) + Expansions(ts[1..], dict)
  }

  function Render(word: char -> bool, t: string, dict: map<string, string>): string {
    Expansions(TokensFrom(word, t, 0), dict)
  }

  /** The regular expression's own meaning: t[i..j] is an opening brace, word characters, a closing brace. */
  ghost predicate MatchAt(word: char -> bool, t: string, i: nat, j: nat) {
    i + 2 < j <= |t| && t[i] == '{' && t[j - 1] == '}' && forall k :: i < k < j - 1 ==> word(t[k])
  }

  /** Braces are not word characters, which is all that is assumed of \w. */
  ghost predicate BracesAreNotWords(word: char -> bool) {
    !word('{') && !word('}')
  }

  /** The pattern matches at i in at most one way, the one the scan takes. */
  lemma TokenIsTheMatch(word: char -> bool, t: string, i: nat, j: nat)
    requires BracesAreNotWords(word) && i < |t|
    ensures MatchAt(word, t, i, j) <==> TokenAt(word, t, i).Hole? && j == i + TokenAt(word, t, i).Size()
  {
  }

  lemma TokenSource(word: char -> bool, t: string, i: nat)
    requires i < |t|
    ensures TokenAt(word, t, i).Source() == t[i..i + TokenAt(word, t, i).Size()]
  {
    if HoleAt(word, t, i) {
      Bracketed(t, i, WordEnd(word, t, i + 1));
    }
  }

  lemma Bracketed(t: string, i: nat, e: nat)
    requires i < e < |t| && t[i] == '{' && t[e] == '}'
    ensures "{" + t[i + 1..e] + "}" == t[i..e + 1]
  {
  }

  lemma SourcesOfCons(tok: Token, ts: seq<Token>)
    ensures Sources([tok] + ts) == tok.Source() + Sources(ts)
  {
  }

  lemma Split(t: string, i: nat, j: nat)
    requires i <= j <= |t|
    ensures t[i..] == t[i..j] + t[j..]
  {
  }

  lemma {:induction false} TokensSpellTheTemplate(word: char -> bool, t: string, i: nat)
    requires i <= |t|
    ensures Sources(TokensFrom(word, t, i)) == t[i..]
    decreases |t| - i
  {
    hide TokenAt;
    hide Token.Source;
    if i < |t| {
      var tok := TokenAt(word, t, i);
      var j := i + tok.Size();
      TokensSpellTheTemplate(word, t, j);
      SourcesOfCons(tok, TokensFrom(word, t, j));
      TokenSource(word, t, i);
      Split(t, i, j);
    }
  }

  /** Where the k-th token taken from i on starts. */
  function Start(word: char -> bool, t: string, i: nat, k: nat): (o: nat)
    requires i <= |t| && k <= |TokensFrom(word, t, i)|
    ensures o <= |t|
    ensures k < |TokensFrom(word, t, i)| ==> o < |t| && TokensFrom(word, t, i)[k] == TokenAt(word, t, o)
    decreases k
  {
    hide TokenAt;
    if k == 0 then i else Start(word, t, i + TokenAt(word, t, i).Size(), k - 1)
  }

  /** The scan is leftmost: the k-th token is a hole exactly when the pattern matches where it starts, and then
      it is that match; otherwise it is the one character there. */
  lemma TokensAreLeftmostMatches(word: char -> bool, t: string, k: nat, o: nat, j: nat)
    requires BracesAreNotWords(word) && k < |TokensFrom(word, t, 0)| && o == Start(word, t, 0, k)
    ensures var tok := TokensFrom(word, t, 0)[k];
      && tok.Source() == t[o..o + tok.Size()]
      && (MatchAt(word, t, o, j) <==> tok.Hole? && j == o + tok.Size())
  {
    hide TokenAt;
    TokenIsTheMatch(word, t, o, j);
    TokenSource(word, t, o);
  }

  /** Mapping every key to its own placeholder changes nothing. */
  lemma OwnPlaceholdersAreTheIdentity(word: char -> bool, t: string, dict: map<string, string>)
    requires forall key :: key in dict ==> dict[key] == "{" + key + "}"
    ensures Render(word, t, dict) == t
  {
    TokensSpellTheTemplate(word, t, 0);
    ExpansionsOfOwnPlaceholders(TokensFrom(word, t, 0), dict);
  }

  lemma {:induction false} ExpansionsOfOwnPlaceholders(ts: seq<Token>, dict: map<string, string>)
    requires forall key :: key in dict ==> dict[key] == "{" + key + "}"
    ensures Expansions(ts, dict) == Sources(ts)
  {
    if ts != [] {
      ExpansionsOfOwnPlaceholders(ts[1..], dict);
    }
  }

  /** What follows an opening brace does not change the token taken before it. */
  lemma TokenBeforeBrace(word: char -> bool, a: string, tail: string, i: nat)
    requires BracesAreNotWords(word) && i < |a| && tail != "" && tail[0] == '{'
    ensures TokenAt(word, a + tail, i) == TokenAt(word, a, i)
  {
    var t := a + tail;
    assert t[|a|] == '{';
    assert forall k :: 0 <= k < |a| ==> t[k] == a[k];
    var e, f := WordEnd(word, t, i + 1), WordEnd(word, a, i + 1);
    assert e < |t| ==> !word(t[e]);
    assert t[i + 1..e] == a[i + 1..e];
  }

  lemma {:induction false} TokensBeforeBrace(word: char -> bool, a: string, tail: string, i: nat)
    requires BracesAreNotWords(word) && i <= |a| && tail != "" && tail[0] == '{'
    ensures TokensFrom(word, a + tail, i) == TokensFrom(word, a, i) + TokensFrom(word, a + tail, |a|)
    decreases |a| - i
  {
    hide TokenAt;
    hide HoleAt;
    if i < |a| {
      TokenBeforeBrace(word, a, tail, i);
      TokensBeforeBrace(word, a, tail, i + TokenAt(word, a, i).Size());
    }
  }

  lemma WordEndShift(word: char -> bool, a: string, tail: string, i: nat)
    requires i <= |tail|
    ensures WordEnd(word, a + tail, |a| + i) == |a| + WordEnd(word, tail, i)
  {
    var t := a + tail;
    var e, f := WordEnd(word, t, |a| + i), WordEnd(word, tail, i);
    assert forall k :: 0 <= k < |tail| ==> t[|a| + k] == tail[k];
    assert e < |t| ==> !word(t[e]);
    assert f < |tail| ==> !word(t[|a| + f]);
  }

  lemma TokenShift(word: char -> bool, a: string, tail: string, i: nat)
    requires i < |tail|
    ensures TokenAt(word, a + tail, |a| + i) == TokenAt(word, tail, i)
  {
    var t := a + tail;
    WordEndShift(word, a, tail, i + 1);
    var e := WordEnd(word, tail, i + 1);
    assert e < |tail| ==> t[|a| + e] == tail[e];
    assert t[|a| + i + 1..|a| + e] == tail[i + 1..e];
  }

  lemma {:induction false} TokensShift(word: char -> bool, a: string, tail: string, i: nat)
    requires i <= |tail|
    ensures TokensFrom(word, a + tail, |a| + i) == TokensFrom(word, tail, i)
    decreases |tail| - i
  {
    hide TokenAt;
    hide HoleAt;
    if i < |tail| {
      TokenShift(word, a, tail, i);
      TokensShift(word, a, tail, i + TokenAt(word, tail, i).Size());
    }
  }

  lemma TokensOfPlaceholder(word: char -> bool, name: string, b: string)
    requires BracesAreNotWords(word) && name != "" && forall i :: 0 <= i < |name| ==> word(name[i])
    ensures TokensFrom(word, "{" + name + "}" + b, 0) == [Hole(name)] + TokensFrom(word, b, 0)
  {
    var hole := "{" + name + "}";
    var t := hole + b;
    assert forall k :: 0 < k < |name| + 1 ==> t[k] == name[k - 1];
    assert t[|name| + 1] == '}';
    TokenIsTheMatch(word, t, 0, |name| + 2);
    assert t[1..|name| + 1] == name;
    TokensShift(word, hole, b, 0);
  }

  lemma {:induction false} ExpansionsOfConcat(xs: seq<Token>, ys: seq<Token>, dict: map<string, string>)
    ensures Expansions(xs + ys, dict) == Expansions(xs, dict) + Expansions(ys, dict)
  {
    if xs == [] {
      assert xs + ys == ys;
    } else {
      assert (xs + ys)[0] == xs[0] && (xs + ys)[1..] == xs[1..] + ys;
      ExpansionsOfConcat(xs[1..], ys, dict);
    }
  }

  /** Single pass: the value replaces the placeholder verbatim, braces and all, and the text on each side
      renders as if it stood alone. */
  lemma RenderingIsSinglePass(word: char -> bool, a: string, name: string, b: string, dict: map<string, string>)
    requires BracesAreNotWords(word) && name != "" && forall i :: 0 <= i < |name| ==> word(name[i])
    ensures Render(word, a + ("{" + name + "}" + b), dict)
      == Render(word, a, dict) + ((if name in dict then dict[name] else "{" + name + "}") + Render(word, b, dict))
  {
    var tail := "{" + name + "}" + b;
    TokensBeforeBrace(word, a, tail, 0);
    TokensShift(word, a, tail, 0);
    TokensOfPlaceholder(word, name, b);
    ExpansionsOfConcat(TokensFrom(word, a, 0), TokensFrom(word, tail, 0), dict);
  }
}
