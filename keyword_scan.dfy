/**
 * The keyword scan at the heart of the `extract-ingredients` route, stated over
 * any keyword list and keyword-to-name table: every keyword, in list order,
 * that occurs in the text contributes its canonical name unless that name is
 * already in the result.
 */
module KeywordScan {
  import opened Seqs
  import opened Text

  /**
   * Under `table`, the keyword produces the canonical name `x` on the lower-cased
   * text: it occurs there and maps to `x`, which is non-empty (the source tests
   * the looked-up name for truthiness, so an empty name would be skipped).
   */
  predicate Produces(table: map<string, string>, keyword: string, text: string, x: string) {
    Includes(text, keyword) && keyword in table && table[keyword] == x && x != ""
  }

  /** What one keyword contributes before de-duplication. */
  function Hit(table: map<string, string>, keyword: string, text: string): (r: seq<string>)
    ensures |r| <= 1
    ensures forall x :: x in r <==> Produces(table, keyword, text, x)
  {
    if Includes(text, keyword) && keyword in table && table[keyword] != "" then [table[keyword]] else []
  }

  /** The contributions of the first `n` keywords, in keyword order. */
  function ScanHits(table: map<string, string>, keywords: seq<string>, text: string, n: nat): seq<string>
    requires n <= |keywords|
  {
    if n == 0 then [] else ScanHits(table, keywords, text, n - 1) + Hit(table, keywords[n - 1], text)
  }

  /** The canonical names found in `text`, each once, in the order the scan first meets them. */
  function Found(table: map<string, string>, keywords: seq<string>, text: string): seq<string> {
    Dedup(ScanHits(table, keywords, text, |keywords|))
  }

  /** What one step of the scan loop makes of the names `d` collected so far when it checks keyword `k`. */
  function Step(table: map<string, string>, k: string, text: string, d: seq<string>): seq<string> {
    if Includes(text, k) && k in table && table[k] != "" && table[k] !in d then d + [table[k]] else d
  }

  /** One step of the scan loop: keyword `i` appends its canonical name when the name is new. */
  lemma ScanStep(table: map<string, string>, keywords: seq<string>, text: string, i: nat)
    requires i < |keywords|
    ensures Dedup(ScanHits(table, keywords, text, i + 1)) ==
      Step(table, keywords[i], text, Dedup(ScanHits(table, keywords, text, i)))
  {
    var k := keywords[i];
    var before := ScanHits(table, keywords, text, i);
    if Includes(text, k) && k in table && table[k] != "" {
      DedupSnoc(before, table[k]);
    } else {
      assert ScanHits(table, keywords, text, i + 1) == before;
    }
  }

  /** The scan loop over the keyword list: check each keyword in turn and append its new canonical name. */
  method ScanKeywords(table: map<string, string>, keywords: seq<string>, text: string) returns (ingredients: seq<string>)
    ensures ingredients == Found(table, keywords, text)
  {
    ingredients := [];
    for i := 0 to |keywords|
      invariant ingredients == Dedup(ScanHits(table, keywords, text, i))
    {
      var keyword := keywords[i];
      ghost var before := ingredients;
      if Includes(text, keyword) {
        if keyword in table {
          var standardName := table[keyword];
          if standardName != "" && standardName !in ingredients {
            ingredients := ingredients + [standardName];
          }
        }
      }
      assert ingredients == Step(table, keyword, text, before);
      ScanStep(table, keywords, text, i);
    }
  }

  /** A name is among the first `n` contributions exactly when one of the first `n` keywords produces it. */
  lemma {:induction false} ScanHitsMember(table: map<string, string>, keywords: seq<string>, text: string, n: nat, x: string)
    requires n <= |keywords|
    ensures x in ScanHits(table, keywords, text, n) <==> exists i :: 0 <= i < n && Produces(table, keywords[i], text, x)
  {
    if n > 0 {
      ScanHitsMember(table, keywords, text, n - 1, x);
      if Produces(table, keywords[n - 1], text, x) {
        assert x in Hit(table, keywords[n - 1], text);
      }
    }
  }

  /**
   * The found names are exactly those some keyword of the list produces, and
   * none is found twice.
   */
  lemma FoundMembers(table: map<string, string>, keywords: seq<string>, text: string)
    ensures NoDup(Found(table, keywords, text))
    ensures forall x :: x in Found(table, keywords, text) <==> exists k :: k in keywords && Produces(table, k, text, x)
  {
    DedupNoDup(ScanHits(table, keywords, text, |keywords|));
    forall x
      ensures x in Found(table, keywords, text) <==> exists k :: k in keywords && Produces(table, k, text, x)
    {
      ScanHitsMember(table, keywords, text, |keywords|, x);
      if exists k :: k in keywords && Produces(table, k, text, x) {
        var k :| k in keywords && Produces(table, k, text, x);
        var i := IndexOf(keywords, k);
        assert Produces(table, keywords[i], text, x);
      }
    }
  }

  /** Scanning fewer keywords yields a prefix of the contributions. */
  lemma {:induction false} ScanHitsPrefix(table: map<string, string>, keywords: seq<string>, text: string, n: nat, m: nat)
    requires n <= m <= |keywords|
    ensures ScanHits(table, keywords, text, n) <= ScanHits(table, keywords, text, m)
    decreases m
  {
    if n < m {
      ScanHitsPrefix(table, keywords, text, n, m - 1);
    }
  }

  /**
   * Output order follows keyword order: a name produced by keyword `i` comes
   * before every found name that none of the keywords up to `i` produces,
   * wherever the two keywords occur in the text.
   */
  lemma FoundFollowsKeywordOrder(table: map<string, string>, keywords: seq<string>, text: string, i: nat, x: string, y: string)
    requires i < |keywords| && Produces(table, keywords[i], text, x)
    requires y in Found(table, keywords, text)
    requires forall j :: 0 <= j <= i ==> !Produces(table, keywords[j], text, y)
    ensures x in Found(table, keywords, text)
    ensures IndexOf(Found(table, keywords, text), x) < IndexOf(Found(table, keywords, text), y)
  {
    var all := ScanHits(table, keywords, text, |keywords|);
    ProducedEarly(table, keywords, text, i, x);
    NotProducedEarly(table, keywords, text, i, y);
    DedupKeepsFirstOccurrenceOrder(all, x, y);
  }

  /** A name produced by keyword `i` first appears within the contributions of the first `i + 1` keywords. */
  lemma ProducedEarly(table: map<string, string>, keywords: seq<string>, text: string, i: nat, x: string)
    requires i < |keywords| && Produces(table, keywords[i], text, x)
    ensures x in ScanHits(table, keywords, text, |keywords|)
    ensures IndexOf(ScanHits(table, keywords, text, |keywords|), x) < |ScanHits(table, keywords, text, i + 1)|
  {
    var all := ScanHits(table, keywords, text, |keywords|);
    var early := ScanHits(table, keywords, text, i + 1);
    ScanHitsPrefix(table, keywords, text, i + 1, |keywords|);
    var hit := Hit(table, keywords[i], text);
    assert x in hit;
    assert hit == [x];
    assert early == ScanHits(table, keywords, text, i) + hit;
    assert early[|early| - 1] == x;
    assert all[|early| - 1] == x;
    IndexOfAtMost(all, x, |early| - 1);
  }

  /** A name that none of the first `i + 1` keywords produces appears only after their contributions. */
  lemma NotProducedEarly(table: map<string, string>, keywords: seq<string>, text: string, i: nat, y: string)
    requires i < |keywords| && y in ScanHits(table, keywords, text, |keywords|)
    requires forall j :: 0 <= j <= i ==> !Produces(table, keywords[j], text, y)
    ensures IndexOf(ScanHits(table, keywords, text, |keywords|), y) >= |ScanHits(table, keywords, text, i + 1)|
  {
    var all := ScanHits(table, keywords, text, |keywords|);
    var early := ScanHits(table, keywords, text, i + 1);
    ScanHitsPrefix(table, keywords, text, i + 1, |keywords|);
    ScanHitsMember(table, keywords, text, i + 1, y);
    assert all[..|early|] == early;
    IndexOfBeyondPrefix(all, y, |early|);
  }

  /** The scan of a concatenated keyword list is the scan of the first part followed by that of the second. */
  lemma {:induction false} ScanHitsConcat(table: map<string, string>, a: seq<string>, b: seq<string>, text: string, n: nat)
    requires n <= |b|
    ensures ScanHits(table, a + b, text, |a| + n) == ScanHits(table, a, text, |a|) + ScanHits(table, b, text, n)
    decreases n
  {
    if n == 0 {
      ScanHitsSameStart(table, a, a + b, text, |a|);
    } else {
      ScanHitsConcat(table, a, b, text, n - 1);
      assert (a + b)[|a| + n - 1] == b[n - 1];
    }
  }

  /** The scan of a list assembled from seven parts, as the lexicon's keyword list is. */
  lemma ScanHitsConcat7(table: map<string, string>, a: seq<string>, b: seq<string>, c: seq<string>, d: seq<string>,
                        e: seq<string>, f: seq<string>, g: seq<string>, text: string)
    ensures ScanHits(table, a + b + c + d + e + f + g, text, |a + b + c + d + e + f + g|) ==
      ScanHits(table, a, text, |a|) + ScanHits(table, b, text, |b|) + ScanHits(table, c, text, |c|) +
      ScanHits(table, d, text, |d|) + ScanHits(table, e, text, |e|) + ScanHits(table, f, text, |f|) +
      ScanHits(table, g, text, |g|)
  {
    ScanHitsConcat(table, a, b, text, |b|);
    ScanHitsConcat(table, a + b, c, text, |c|);
    ScanHitsConcat(table, a + b + c, d, text, |d|);
    ScanHitsConcat(table, a + b + c + d, e, text, |e|);
    ScanHitsConcat(table, a + b + c + d + e, f, text, |f|);
    ScanHitsConcat(table, a + b + c + d + e + f, g, text, |g|);
  }

  /** Keyword lists that agree on their first `n` entries contribute the same for them. */
  lemma {:induction false} ScanHitsSameStart(table: map<string, string>, a: seq<string>, b: seq<string>, text: string, n: nat)
    requires n <= |a| && n <= |b| && a[..n] == b[..n]
    ensures ScanHits(table, a, text, n) == ScanHits(table, b, text, n)
  {
    if n > 0 {
      assert a[..n - 1] == a[..n][..n - 1] && b[..n - 1] == b[..n][..n - 1];
      assert a[n - 1] == a[..n][n - 1] && b[n - 1] == b[..n][n - 1];
      ScanHitsSameStart(table, a, b, text, n - 1);
    }
  }

  /** A keyword without a table entry contributes nothing: leaving it out of the list gives the same result. */
  lemma UnmappedKeywordIgnored(table: map<string, string>, keywords: seq<string>, text: string, i: nat)
    requires i < |keywords| && keywords[i] !in table
    ensures Found(table, keywords, text) == Found(table, keywords[..i] + keywords[i + 1..], text)
  {
    var a, b := keywords[..i], keywords[i + 1..];
    assert keywords == a + [keywords[i]] + b;
    ScanHitsSkip(table, a, keywords[i], b, text, |b|);
    assert ScanHits(table, keywords, text, |keywords|) == ScanHits(table, a + b, text, |a + b|);
  }

  /** Skipping a keyword without a table entry: the first `|a| + n` keywords of `a + b` scan like the first `|a| + 1 + n` of `a + [k] + b`. */
  lemma {:induction false} ScanHitsSkip(table: map<string, string>, a: seq<string>, k: string, b: seq<string>, text: string, n: nat)
    requires k !in table && n <= |b|
    ensures ScanHits(table, a + [k] + b, text, |a| + 1 + n) == ScanHits(table, a + b, text, |a| + n)
    decreases n
  {
    var long := a + [k] + b;
    var short := a + b;
    if n == 0 {
      assert long[|a|] == k;
      assert long[..|a|] == a == short[..|a|];
      ScanHitsSameStart(table, long, short, text, |a|);
    } else {
      ScanHitsSkip(table, a, k, b, text, n - 1);
      assert long[|a| + n] == b[n - 1] == short[|a| + n - 1];
    }
  }

  /** A keyword that does not occur in the text adds nothing to the scan. */
  lemma ScanHitsMiss(table: map<string, string>, keywords: seq<string>, text: string, i: nat)
    requires i < |keywords| && !Includes(text, keywords[i])
    ensures ScanHits(table, keywords, text, i + 1) == ScanHits(table, keywords, text, i)
  {
  }

  /** A keyword that occurs in the text and has a non-empty canonical name adds that name to the scan. */
  lemma ScanHitsHit(table: map<string, string>, keywords: seq<string>, text: string, i: nat)
    requires i < |keywords| && Includes(text, keywords[i])
    requires keywords[i] in table && table[keywords[i]] != ""
    ensures ScanHits(table, keywords, text, i + 1) == ScanHits(table, keywords, text, i) + [table[keywords[i]]]
  {
  }
}
