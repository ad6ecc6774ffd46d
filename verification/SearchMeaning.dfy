/** What the BM25 index sees of a runbook, and what its formula gives in the cases one can
    check by hand (python/app/infrastructure/runbook_search.py). */
module SearchMeaning {
  import opened Collections
  import opened Text
  import opened Bm25
  import S = RunbookStore

  // ---------- Tokens ----------

  predicate IsWord(text: string)
  {
    forall i | 0 <= i < |text| :: IsLetter(text[i])
  }

  /** Letters, digits, underscores and hyphens make up words. */
  predicate IsLetter(c: char)
  {
    'a' <= c <= 'z' || '0' <= c <= '9' || c == '_' || c == '-'
  }

  /** A maximal word of the text. */
  ghost predicate WordAt(text: string, i: nat, j: nat)
  {
    && i < j <= |text| && IsWord(text[i..j])
    && (i > 0 ==> !IsLetter(text[i - 1])) && (j < |text| ==> !IsLetter(text[j]))
  }

  ghost predicate HasWord(text: string, word: string)
  {
    exists i: nat, j: nat :: WordAt(text, i, j) && text[i..j] == word
  }

  lemma SliceAfter(s: string, m: nat, i: nat, j: nat)
    requires m <= |s| && i <= j <= |s[m..]|
    ensures s[m + i..m + j] == s[m..][i..j]
  {}

  lemma SplitWord(run: string, c: char, rest: string, word: string)
    requires IsWord(run) && !IsLetter(c) && HasWord(run + [c] + rest, word)
    ensures (run != "" && word == run) || HasWord(rest, word)
  {
    var s, n := run + [c] + rest, |run|;
    assert s[n] == c && s[..n] == run && s[n + 1..] == rest;
    var i: nat, j: nat :| WordAt(s, i, j) && s[i..j] == word;
    WordInside(s, n, i, j);
    if i > n {
      WordAfter(s, n, i, j);
    }
  }

  lemma WordBefore(run: string, c: char, rest: string)
    requires IsWord(run) && !IsLetter(c) && run != ""
    ensures HasWord(run + [c] + rest, run)
  {
    var s, n := run + [c] + rest, |run|;
    assert s[0..n] == run && s[n] == c;
    assert WordAt(s, 0, n);
  }

  lemma WordBehind(s: string, m: nat, i: nat, j: nat)
    requires 0 < m <= |s| && !IsLetter(s[m - 1]) && WordAt(s[m..], i, j)
    ensures HasWord(s, s[m..][i..j])
  {
    var rest := s[m..];
    SliceAfter(s, m, i, j);
    assert i > 0 ==> s[m + i - 1] == rest[i - 1];
    assert j < |rest| ==> s[m + j] == rest[j];
    assert WordAt(s, m + i, m + j);
  }

  lemma SplitWords(run: string, c: char, rest: string, word: string)
    requires IsWord(run) && !IsLetter(c)
    ensures HasWord(run + [c] + rest, word) <==> (run != "" && word == run) || HasWord(rest, word)
  {
    var s, n := run + [c] + rest, |run|;
    if HasWord(s, word) {
      SplitWord(run, c, rest, word);
    }
    if run != "" && word == run {
      WordBefore(run, c, rest);
    }
    if HasWord(rest, word) {
      var i: nat, j: nat :| WordAt(rest, i, j) && rest[i..j] == word;
      assert s[n] == c && s[n + 1..] == rest;
      WordBehind(s, n + 1, i, j);
    }
  }

  /** A word lies before or after a character that is no letter; all before it is one word. */
  lemma WordInside(s: string, n: nat, i: nat, j: nat)
    requires n < |s| && IsWord(s[..n]) && !IsLetter(s[n]) && WordAt(s, i, j)
    ensures i > n || (i == 0 && j == n)
  {
    assert forall k :: i <= k < j ==> s[i..j][k - i] == s[k];
    assert forall k :: 0 <= k < n ==> s[..n][k] == s[k];
  }

  lemma WordAfter(s: string, n: nat, i: nat, j: nat)
    requires n < i && WordAt(s, i, j)
    ensures HasWord(s[n + 1..], s[i..j])
  {
    var rest := s[n + 1..];
    assert rest[i - n - 1..j - n - 1] == s[i..j];
    assert i > n + 1 ==> rest[i - n - 2] == s[i - 1];
    assert j < |s| ==> rest[j - n - 1] == s[j];
    assert WordAt(rest, i - n - 1, j - n - 1);
  }

  lemma OneWord(run: string, word: string)
    requires IsWord(run)
    ensures HasWord(run, word) <==> run != "" && word == run
  {
    if HasWord(run, word) {
      var i: nat, j: nat :| WordAt(run, i, j) && run[i..j] == word;
      assert run[0..|run|] == run;
    }
    if run != "" && word == run {
      assert run[0..|run|] == run;
      assert WordAt(run, 0, |run|);
    }
  }

  lemma {:induction false} ScanFinds(text: string, run: string, word: string)
    requires IsWord(run)
    ensures word in Scan(text, run) <==> |word| >= 2 && HasWord(run + text, word)
    decreases |text|
  {
    if text == "" {
      assert run + text == run;
      OneWord(run, word);
    } else if IsLetter(text[0]) {
      assert run + text == (run + [text[0]]) + text[1..];
      ScanFinds(text[1..], run + [text[0]], word);
    } else {
      assert run + text == run + [text[0]] + text[1..];
      assert "" + text[1..] == text[1..];
      ScanFinds(text[1..], "", word);
      SplitWords(run, text[0], text[1..], word);
    }
  }

  /** The tokens are the maximal words of the text in lower case, of two letters or more. */
  lemma TokensAreWords(text: string, word: string)
    ensures word in Tokenize(text) <==> |word| >= 2 && HasWord(Lower(text), word)
  {
    assert "" + Lower(text) == Lower(text);
    ScanFinds(Lower(text), "", word);
  }

  // ---------- Fields ----------

  lemma {:induction false} JoinedTokens(parts: seq<string>, word: string)
    ensures word in Tokenize(S.Join(parts, " ")) <==> exists k :: 0 <= k < |parts| && word in Tokenize(parts[k])
  {
    if |parts| > 1 {
      var n := |parts| - 1;
      JoinedTokens(parts[..n], word);
      TokensOfJoin(S.Join(parts[..n], " "), parts[n]);
      assert S.Join(parts, " ") == S.Join(parts[..n], " ") + " " + parts[n];
      if k :| 0 <= k < |parts| && word in Tokenize(parts[k]) {
        assert k < n ==> parts[..n][k] == parts[k];
      }
      if k :| 0 <= k < n && word in Tokenize(parts[..n][k]) {
        assert parts[..n][k] == parts[k];
      }
    } else if parts == [] {
      assert Lower("") == "";
    }
  }

  /** A runbook is found by the words of its title, symptoms, root cause, resolution, tags and
      component. */
  lemma FieldsIndexed(v: S.Version, word: string)
    ensures word in Tokenize(DocText(v)) <==>
            || word in Tokenize(v.content.title)
            || (exists k :: 0 <= k < |v.content.symptoms| && word in Tokenize(v.content.symptoms[k]))
            || word in Tokenize(v.content.rootCause)
            || word in Tokenize(v.content.resolution)
            || (exists k :: 0 <= k < |v.content.tags| && word in Tokenize(v.content.tags[k]))
            || word in Tokenize(v.content.component)
  {
    var c := v.content;
    var parts := [c.title, S.Join(c.symptoms, " "), c.rootCause, c.resolution, S.Join(c.tags, " "), c.component];
    JoinedTokens(parts, word);
    JoinedTokens(c.symptoms, word);
    JoinedTokens(c.tags, word);
    assert parts[0] == c.title && parts[2] == c.rootCause && parts[3] == c.resolution && parts[5] == c.component;
    assert parts[1] == S.Join(c.symptoms, " ") && parts[4] == S.Join(c.tags, " ");
  }

  // ---------- The formula ----------

  /** The inverse document frequency in closed form: of n documents, df with the term. */
  lemma IdfClosed(p: Params, ix: Index, t: string)
    ensures Idf(p, ix, t) == p.log((ix.docCount as real + 1.0) / (Df(ix.df, t) as real + 0.5))
  {
    var n, d := ix.docCount as real, Df(ix.df, t) as real + 0.5;
    assert (n - (d - 0.5) + 0.5) / d + 1.0 == (n + 1.0) / d by {
      assert (n + 1.0 - d) / d == (n + 1.0) / d - d / d;
    }
  }

  /** A term that occurs once in a document of average length contributes exactly its idf,
      whatever the parameters. */
  lemma OnceInAverage(p: Params, ix: Index, d: Doc, t: string)
    requires Scorable(p, ix, d) && p.k1 >= 0.0 && |d.terms| as real == ix.avgLength
    requires d.terms[t] == 1 && Df(ix.df, t) > 0
    ensures TermScore(p, ix, d, t) == Idf(p, ix, t)
  {
    NormAverage(p.k1, p.b, ix.avgLength);
    var c := p.k1 + 1.0;
    assert Weight(p, ix, d) == p.k1;
    assert Saturation(1.0, p.k1, p.k1) == (1.0 * c) / c == 1.0;
    TimesOne(Idf(p, ix, t));
  }

  lemma TimesOne(x: real)
    ensures x * 1.0 == x
  {}

  lemma NormAverage(k1: real, b: real, average: real)
    requires average > 0.0
    ensures Norm(k1, b, average, average) == k1
  {
    assert b * average / average == b;
    assert 1.0 - b + b == 1.0;
    TimesOne(k1);
  }

  /** The weight of a document twice as long as the average is k1 (1 + b). */
  lemma TwiceAverage(k1: real, b: real, average: real)
    requires average > 0.0
    ensures Norm(k1, b, 2.0 * average, average) == k1 * (1.0 + b)
  {
    var q := b * (2.0 * average) / average;
    assert b * (2.0 * average) == (2.0 * b) * average;
    assert q == 2.0 * b;
    assert 1.0 - b + q == 1.0 + b;
  }

  // ---------- The index ----------

  lemma InSomeDocument(docs: seq<Doc>, t: string)
    ensures Count(docs, HasTerm(t)) == 0 <==> forall d | d in docs :: t !in d.terms
  {
    if Count(docs, HasTerm(t)) > 0 {
      var i := CountWitness(docs, HasTerm(t));
      assert docs[i] in docs;
    }
    if d :| d in docs && t in d.terms {
      var i :| 0 <= i < |docs| && docs[i] == d;
      CountOne(docs, i, HasTerm(t));
    }
  }

  /** The average length is that of the indexed documents, and the frequency of a term the
      number of documents that hold it. */
  lemma IndexMeans(ix: Index, t: string)
    requires Exact(ix)
    ensures ix.docs != [] ==> ix.avgLength * |ix.docs| as real == TotalLength(ix.docs) as real
    ensures Df(ix.df, t) <= ix.docCount == |ix.docs|
    ensures Df(ix.df, t) == 0 <==> forall d | d in ix.docs :: t !in d.terms
    ensures Df(ix.df, t) == ix.docCount <==> forall d | d in ix.docs :: t in d.terms
  {
    CountBound(ix.docs, HasTerm(t));
    InSomeDocument(ix.docs, t);
    CountFull(ix.docs, HasTerm(t));
  }

  lemma {:induction false} CountFull(docs: seq<Doc>, p: Doc -> bool)
    ensures Count(docs, p) == |docs| <==> forall d | d in docs :: p(d)
  {
    if docs != [] {
      var n := |docs| - 1;
      CountFull(docs[..n], p);
      CountBound(docs[..n], p);
      assert docs == docs[..n] + [docs[n]];
    }
  }
}
