/** Byte-pair merging: two independently written merge loops and the segmentation both compute. */
module Merging {
  import opened Text

  type Merge = (string, string)

  // ----- the segmentation ----------------------------------------------------------------------

  /** `m` stands at positions `i`, `i + 1` of the word. */
  predicate PairAt(word: seq<string>, i: nat, m: Merge) {
    i + 1 < |word| && word[i] == m.0 && word[i + 1] == m.1
  }

  predicate Adjacent(word: seq<string>, m: Merge) {
    exists i :: 0 <= i < |word| - 1 && PairAt(word, i, m)
  }

  /** One pass from left to right that joins each occurrence of `m` it meets. */
  function MergePair(word: seq<string>, m: Merge): seq<string> {
    if |word| < 2 then word
    else if PairAt(word, 0, m) then [m.0 + m.1] + MergePair(word[2..], m)
    else [word[0]] + MergePair(word[1..], m)
  }

  /** The first merge from `from` on that applies to the word; |merges| when none does. */
  function FirstApplicable(word: seq<string>, merges: seq<Merge>, from: nat): (k: nat)
    requires from <= |merges|
    ensures from <= k <= |merges|
    ensures forall j :: from <= j < k ==> !Adjacent(word, merges[j])
    ensures k < |merges| ==> Adjacent(word, merges[k])
    decreases |merges| - from
  {
    if from == |merges| || Adjacent(word, merges[from]) then from
    else FirstApplicable(word, merges, from + 1)
  }

  /** Applying the first applicable merge until none applies. */
  function Segment(word: seq<string>, merges: seq<Merge>): seq<string>
    decreases |word|
  {
    var k := FirstApplicable(word, merges, 0);
    if k == |merges| then word
    else
      MergeShortens(word, merges[k]);
      Segment(MergePair(word, merges[k]), merges)
  }

  /** How many passes that takes. */
  function Passes(word: seq<string>, merges: seq<Merge>): nat
    decreases |word|
  {
    var k := FirstApplicable(word, merges, 0);
    if k == |merges| then 0
    else
      MergeShortens(word, merges[k]);
      1 + Passes(MergePair(word, merges[k]), merges)
  }

  function Join(word: seq<string>): string {
    if word == [] then "" else word[0] + Join(word[1..])
  }

  lemma {:induction false} MergeShortens(word: seq<string>, m: Merge)
    ensures |MergePair(word, m)| <= |word|
    ensures Adjacent(word, m) ==> |MergePair(word, m)| < |word|
    decreases |word|
  {
    if |word| >= 2 {
      if PairAt(word, 0, m) {
        MergeShortens(word[2..], m);
      } else {
        MergeShortens(word[1..], m);
        if Adjacent(word, m) {
          var i :| 0 <= i < |word| - 1 && PairAt(word, i, m);
          assert PairAt(word[1..], i - 1, m);
        }
      }
    }
  }

  // ----- what the segmentation guarantees ------------------------------------------------------

  lemma {:induction false} MergeKeepsText(word: seq<string>, m: Merge)
    ensures Join(MergePair(word, m)) == Join(word)
    decreases |word|
  {
    if |word| >= 2 {
      if PairAt(word, 0, m) {
        MergeKeepsText(word[2..], m);
        assert Join(word) == word[0] + (word[1] + Join(word[2..])) by {
          assert word[1..][1..] == word[2..];
        }
        assert Join(word) == (m.0 + m.1) + Join(word[2..]);
      } else {
        MergeKeepsText(word[1..], m);
      }
    }
  }

  /** Segmenting loses no text, and leaves no two neighbours that the merge list would join. */
  lemma {:induction false} SegmentIsComplete(word: seq<string>, merges: seq<Merge>)
    ensures Join(Segment(word, merges)) == Join(word)
    ensures forall k :: 0 <= k < |merges| ==> !Adjacent(Segment(word, merges), merges[k])
    decreases |word|
  {
    var k := FirstApplicable(word, merges, 0);
    if k < |merges| {
      MergeShortens(word, merges[k]);
      MergeKeepsText(word, merges[k]);
      SegmentIsComplete(MergePair(word, merges[k]), merges);
    }
  }

  /** Every pass removes a token, so a word of n symbols takes at most n - 1 passes. */
  lemma {:induction false} PassesAreBounded(word: seq<string>, merges: seq<Merge>)
    ensures Passes(word, merges) + |Segment(word, merges)| <= |word|
    ensures word != [] ==> Segment(word, merges) != [] && Passes(word, merges) <= |word| - 1
    decreases |word|
  {
    var k := FirstApplicable(word, merges, 0);
    if k < |merges| {
      MergeShortens(word, merges[k]);
      PassesAreBounded(MergePair(word, merges[k]), merges);
    }
  }

  ghost predicate Known(token: string, symbols: set<string>, merges: seq<Merge>) {
    token in symbols || exists k :: 0 <= k < |merges| && token == merges[k].0 + merges[k].1
  }

  ghost predicate AllKnown(word: seq<string>, symbols: set<string>, merges: seq<Merge>) {
    forall token :: token in word ==> Known(token, symbols, merges)
  }

  lemma {:induction false} MergeMakesKnown(word: seq<string>, k: nat, symbols: set<string>,
                                           merges: seq<Merge>)
    requires k < |merges| && AllKnown(word, symbols, merges)
    ensures AllKnown(MergePair(word, merges[k]), symbols, merges)
    decreases |word|
  {
    if |word| >= 2 {
      if PairAt(word, 0, merges[k]) {
        assert Known(merges[k].0 + merges[k].1, symbols, merges);
        MergeMakesKnown(word[2..], k, symbols, merges);
      } else {
        MergeMakesKnown(word[1..], k, symbols, merges);
      }
    }
  }

  /** Every token is a symbol of the word or the product of a merge, so a vocabulary that holds
      the symbols and the products names every token. */
  lemma {:induction false} TokensAreKnown(word: seq<string>, symbols: set<string>,
                                          merges: seq<Merge>)
    requires AllKnown(word, symbols, merges)
    ensures AllKnown(Segment(word, merges), symbols, merges)
    decreases |word|
  {
    var k := FirstApplicable(word, merges, 0);
    if k < |merges| {
      MergeShortens(word, merges[k]);
      MergeMakesKnown(word, k, symbols, merges);
      TokensAreKnown(MergePair(word, merges[k]), symbols, merges);
    }
  }

  lemma {:induction false} SegmentStep(word: seq<string>, merges: seq<Merge>, k: nat)
    requires k < |merges| && k == FirstApplicable(word, merges, 0)
    ensures Segment(word, merges) == Segment(MergePair(word, merges[k]), merges)
    ensures Passes(word, merges) == 1 + Passes(MergePair(word, merges[k]), merges)
    ensures |MergePair(word, merges[k])| < |word|
  {
    MergeShortens(word, merges[k]);
  }

  lemma {:induction false} SegmentDone(word: seq<string>, merges: seq<Merge>)
    requires FirstApplicable(word, merges, 0) == |merges|
    ensures Segment(word, merges) == word && Passes(word, merges) == 0
  {
  }

  // ----- the pass as a loop --------------------------------------------------------------------

  lemma {:induction false} PassEnd(word: seq<string>, m: Merge)
    ensures MergePair(word[|word|..], m) == []
  {
  }

  lemma {:induction false} PassStep(word: seq<string>, i: nat, m: Merge)
    requires i < |word|
    ensures MergePair(word[i..], m) ==
            if PairAt(word, i, m) then [m.0 + m.1] + MergePair(word[i + 2..], m)
            else [word[i]] + MergePair(word[i + 1..], m)
  {
    var rest := word[i..];
    if |rest| >= 2 {
      assert rest[2..] == word[i + 2..] && rest[1..] == word[i + 1..];
    } else {
      assert rest == [word[i]] && word[i + 1..] == [];
    }
  }

  /** `merge_pair!` */
  method MergePairPass(word: seq<string>, pair: Merge) returns (newWord: seq<string>)
    ensures newWord == MergePair(word, pair)
  {
    hide MergePair;
    newWord := [];
    var i := 0;
    while i < |word|
      invariant 0 <= i <= |word|
      invariant newWord + MergePair(word[i..], pair) == MergePair(word, pair)
    {
      PassStep(word, i, pair);
      if i < |word| - 1 && word[i] == pair.0 && word[i + 1] == pair.1 {
        newWord := newWord + [pair.0 + pair.1];
        i := i + 2;
      } else {
        newWord := newWord + [word[i]];
        i := i + 1;
      }
    }
    PassEnd(word, pair);
    assert word[i..] == word[|word|..];
  }

  // ----- first loop: scan the merge list in order, restart after each merge --------------------

  /** Positions passed over without a match, and the two a match covers. */
  lemma {:induction false} NoPairBefore(word: seq<string>, m: Merge)
    requires forall j :: 0 <= j < |word| ==> !PairAt(word, j, m)
    ensures !Adjacent(word, m)
  {
  }

  lemma {:induction false} PairIsAdjacent(word: seq<string>, i: nat, m: Merge)
    requires PairAt(word, i, m)
    ensures Adjacent(word, m)
  {
  }

  /** The innermost loop: one merge tried over the whole word. */
  method TryMerge(encoded: seq<string>, m: Merge) returns (newEncoded: seq<string>, found: bool)
    ensures newEncoded == MergePair(encoded, m)
    ensures found <==> Adjacent(encoded, m)
  {
    hide MergePair, Adjacent;
    var (left, right) := m;
    var merged := left + right;
    newEncoded, found := [], false;
    var i := 0;
    while i < |encoded|
      invariant 0 <= i <= |encoded|
      invariant newEncoded + MergePair(encoded[i..], m) == MergePair(encoded, m)
      invariant found ==> Adjacent(encoded, m)
      invariant !found ==> forall j :: 0 <= j < i ==> !PairAt(encoded, j, m)
    {
      PassStep(encoded, i, m);
      if i < |encoded| - 1 && encoded[i] == left && encoded[i + 1] == right {
        PairIsAdjacent(encoded, i, m);
        newEncoded := newEncoded + [merged];
        i := i + 2;
        found := true;
      } else {
        newEncoded := newEncoded + [encoded[i]];
        i := i + 1;
      }
    }
    PassEnd(encoded, m);
    assert encoded[i..] == encoded[|encoded|..];
    if !found {
      NoPairBefore(encoded, m);
    }
  }

  /** The merge loop of `BPETokenizer.encode`. */
  method ScanInOrder(symbols: seq<string>, merges: seq<Merge>) returns (encoded: seq<string>, ghost passes: nat)
    ensures encoded == Segment(symbols, merges)
    ensures passes == Passes(symbols, merges) && (symbols != [] ==> passes <= |symbols| - 1)
  {
    hide Segment, Passes, MergePair;
    encoded, passes := symbols, 0;
    var changed := true;
    while changed
      invariant Segment(encoded, merges) == Segment(symbols, merges)
      invariant passes + Passes(encoded, merges) == Passes(symbols, merges)
      invariant !changed ==> FirstApplicable(encoded, merges, 0) == |merges|
      decreases |encoded|, changed
    {
      changed := false;
      var k := 0;
      while k < |merges|
        invariant k <= |merges| && !changed
        invariant forall j :: 0 <= j < k ==> !Adjacent(encoded, merges[j])
      {
        var newEncoded, found := TryMerge(encoded, merges[k]);
        if found {
          assert FirstApplicable(encoded, merges, 0) == k;
          SegmentStep(encoded, merges, k);
          encoded, passes := newEncoded, passes + 1;
          changed := true;
          break;
        }
        k := k + 1;
      }
    }
    SegmentDone(encoded, merges);
    PassesAreBounded(symbols, merges);
  }

  // ----- second loop: the lowest-ranked of the adjacent pairs ----------------------------------

  /** `findfirst(isequal(pair), merges)` */
  function FindFirst(pair: Merge, merges: seq<Merge>, from: nat): (k: nat)
    requires from <= |merges|
    ensures from <= k <= |merges|
    ensures forall j :: from <= j < k ==> merges[j] != pair
    ensures k < |merges| ==> merges[k] == pair
    decreases |merges| - from
  {
    if from == |merges| || merges[from] == pair then from else FindFirst(pair, merges, from + 1)
  }

  /** The dictionary of adjacent pairs with their counts. */
  method CountPairs(chars: seq<string>) returns (pairs: map<Merge, nat>)
    ensures forall m :: m in pairs <==> Adjacent(chars, m)
  {
    pairs := map[];
    var i := 0;
    while i < |chars| - 1
      invariant 0 <= i && (|chars| > 0 ==> i <= |chars| - 1)
      invariant forall m :: m in pairs <==> exists j :: 0 <= j < i && PairAt(chars, j, m)
    {
      var pair := (chars[i], chars[i + 1]);
      assert PairAt(chars, i, pair);
      assert forall m :: PairAt(chars, i, m) ==> m == pair;
      pairs := pairs[pair := (if pair in pairs then pairs[pair] else 0) + 1];
      i := i + 1;
    }
  }

  /** The adjacent pair whose first place in the merge list is lowest, whatever the order in
      which the dictionary is traversed. */
  method BestPair(pairs: map<Merge, nat>, word: seq<string>, merges: seq<Merge>)
    returns (best: Option<Merge>)
    requires forall m :: m in pairs <==> Adjacent(word, m)
    ensures best == if FirstApplicable(word, merges, 0) == |merges| then None
                    else Some(merges[FirstApplicable(word, merges, 0)])
  {
    best := None;
    var bestRank := |merges|;
    var todo := pairs.Keys;
    while todo != {}
      invariant todo <= pairs.Keys && 0 <= bestRank <= |merges|
      invariant best.None? <==> bestRank == |merges|
      invariant best.Some? ==> best.value in pairs && best.value == merges[bestRank]
      invariant forall m :: m in pairs && m !in todo ==> bestRank <= FindFirst(m, merges, 0)
      decreases todo
    {
      var pair :| pair in todo;
      todo := todo - {pair};
      var rank := FindFirst(pair, merges, 0);
      if rank < |merges| && rank < bestRank {
        bestRank := rank;
        best := Some(pair);
      }
    }
    var k := FirstApplicable(word, merges, 0);
    if k < |merges| {
      assert merges[k] in pairs && FindFirst(merges[k], merges, 0) <= k;
    }
    if best.Some? {
      assert Adjacent(word, merges[bestRank]);
    }
  }

  /** The inner loop of `bpe`. */
  method JoinPair(chars: seq<string>, best: Merge) returns (newChars: seq<string>)
    ensures newChars == MergePair(chars, best)
  {
    hide MergePair;
    newChars := [];
    var i := 0;
    while i < |chars|
      invariant 0 <= i <= |chars|
      invariant newChars + MergePair(chars[i..], best) == MergePair(chars, best)
    {
      PassStep(chars, i, best);
      if i < |chars| - 1 && (chars[i], chars[i + 1]) == best {
        newChars := newChars + [chars[i] + chars[i + 1]];
        i := i + 2;
      } else {
        newChars := newChars + [chars[i]];
        i := i + 1;
      }
    }
    PassEnd(chars, best);
    assert chars[i..] == chars[|chars|..];
  }

  /** `NanoGPT.bpe` */
  method Bpe(word: string, merges: seq<Merge>) returns (chars: seq<string>, ghost passes: nat)
    ensures chars == Segment(Symbols(word), merges)
    ensures passes == Passes(Symbols(word), merges) && (word != "" ==> passes <= |word| - 1)
  {
    hide Segment, Passes, MergePair;
    chars, passes := Symbols(word), 0;
    PassesAreBounded(Symbols(word), merges);
    if |chars| == 1 {
      SingleIsSegmented(chars, merges);
      return;
    }
    var pairs := CountPairs(chars);
    while true
      invariant Segment(chars, merges) == Segment(Symbols(word), merges)
      invariant passes + Passes(chars, merges) == Passes(Symbols(word), merges)
      invariant forall m :: m in pairs <==> Adjacent(chars, m)
      decreases |chars|
    {
      var best := BestPair(pairs, chars, merges);
      if best.None? {
        SegmentDone(chars, merges);
        break;
      }
      SegmentStep(chars, merges, FirstApplicable(chars, merges, 0));
      assert Segment(MergePair(chars, best.value), merges) == Segment(Symbols(word), merges);
      var newChars := JoinPair(chars, best.value);
      chars, passes := newChars, passes + 1;
      if |chars| == 1 {
        SingleIsSegmented(chars, merges);
        break;
      }
      pairs := CountPairs(chars);
    }
  }

  function Symbols(word: string): (symbols: seq<string>)
    ensures |symbols| == |word| && forall i :: 0 <= i < |word| ==> symbols[i] == [word[i]]
  {
    seq(|word|, i requires 0 <= i < |word| => [word[i]])
  }

  lemma {:induction false} SingleIsSegmented(word: seq<string>, merges: seq<Merge>)
    requires |word| == 1
    ensures Segment(word, merges) == word && Passes(word, merges) == 0
  {
  }

  lemma {:induction false} SymbolsSpell(word: string)
    ensures Join(Symbols(word)) == word
  {
    if word != "" {
      SymbolsSpell(word[1..]);
      assert Symbols(word)[1..] == Symbols(word[1..]);
      assert word == [word[0]] + word[1..];
    }
  }
}
