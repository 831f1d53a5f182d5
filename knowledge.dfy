/**
 * `scripts/knowledge-store.py`: the knowledge store that generations share.
 * The store dict that the script's functions mutate in place is the class
 * `KnowledgeStore`; its three lists are fields that the methods reassign.
 */
module Knowledge {
  import opened Wrappers
  import opened Seqs
  import opened Text
  import opened Records
  import Sorting
  import opened Means

  const MaxSuccessPatterns: nat := 50
  const MaxAntiPatterns: nat := 25
  const MaxDomainKnowledge: nat := 100
  const MinConfidence: real := 0.60
  const DefaultConfidence: real := 0.75
  const DecayRate: real := 0.10
  const PromotionThreshold: int := 3

  const SuccessKey := "success_patterns"
  const AntiKey := "anti_patterns"
  const DomainKey := "domain_knowledge"

  function MinReal(a: real, b: real): real
  {
    if a <= b then a else b
  }

  function MaxReal(a: real, b: real): real
  {
    if a >= b then a else b
  }

  /** The order of `sorted(ps, key=lambda x: x.get("confidence", 0), reverse=True)`. */
  function ByConfidence(): (Entry, Entry) -> bool
  {
    (a: Entry, b: Entry) => a.confidence.GetOr(0.0) > b.confidence.GetOr(0.0)
  }

  lemma ByConfidenceIsOrder()
    ensures Sorting.StrictWeakOrder(ByConfidence())
  {
  }

  /** `prune_by_confidence(patterns, max_count)`. */
  function PruneByConfidence(patterns: seq<Entry>, maxCount: int): seq<Entry>
  {
    PyUpTo(Sorting.Sort(patterns, ByConfidence()), maxCount)
  }

  /**
   * Pruning keeps min(len, max_count) entries taken from the list, in
   * descending confidence, and no dropped entry has a higher confidence than
   * a kept one.
   */
  /** In a sorted sequence no element after position m orders before one at or before it. */
  lemma SortedPrefixDominates(s: seq<Entry>, m: nat, e: Entry, d: Entry)
    requires Sorting.Sorted(s, ByConfidence()) && m <= |s|
    requires e in s[..m] && d in s[m..]
    ensures e.confidence.GetOr(0.0) >= d.confidence.GetOr(0.0)
  {
    var i :| 0 <= i < m && s[..m][i] == e;
    var j :| 0 <= j < |s| - m && s[m..][j] == d;
    assert s[i] == e && s[m + j] == d;
    assert !ByConfidence()(s[m + j], s[i]);
  }

  lemma SplitMultiset<T>(s: seq<T>, m: nat)
    requires m <= |s|
    ensures multiset(s) - multiset(s[..m]) == multiset(s[m..])
  {
    assert s == s[..m] + s[m..];
    assert multiset(s) == multiset(s[..m]) + multiset(s[m..]);
  }

  /**
   * Pruning keeps min(len, max_count) entries taken from the list, in
   * descending confidence, and no dropped entry has a higher confidence than
   * a kept one.
   */
  lemma PruneKeepsMostConfident(patterns: seq<Entry>, maxCount: nat)
    ensures var r := PruneByConfidence(patterns, maxCount);
      && |r| == (if |patterns| < maxCount then |patterns| else maxCount)
      && multiset(r) <= multiset(patterns)
      && Sorting.Sorted(r, ByConfidence())
      && forall e, d :: e in r && d in multiset(patterns) - multiset(r) ==>
           e.confidence.GetOr(0.0) >= d.confidence.GetOr(0.0)
  {
    var s := Sorting.Sort(patterns, ByConfidence());
    ByConfidenceIsOrder();
    Sorting.SortSorted(patterns, ByConfidence());
    var m := if |patterns| < maxCount then |patterns| else maxCount;
    assert PruneByConfidence(patterns, maxCount) == s[..m];
    SortedPrefix(patterns, s, m);
  }

  /** A prefix of a sorted arrangement of the list is a sorted sub-multiset that dominates the rest. */
  lemma SortedPrefix(patterns: seq<Entry>, s: seq<Entry>, m: nat)
    requires multiset(s) == multiset(patterns) && Sorting.Sorted(s, ByConfidence()) && m <= |s|
    ensures multiset(s[..m]) <= multiset(patterns)
    ensures Sorting.Sorted(s[..m], ByConfidence())
    ensures forall e, d :: e in s[..m] && d in multiset(patterns) - multiset(s[..m]) ==>
              e.confidence.GetOr(0.0) >= d.confidence.GetOr(0.0)
  {
    var r := s[..m];
    SplitMultiset(s, m);
    assert s == r + s[m..];
    forall e, d | e in r && d in multiset(patterns) - multiset(r)
      ensures e.confidence.GetOr(0.0) >= d.confidence.GetOr(0.0)
    {
      assert d in multiset(s[m..]);
      SortedPrefixDominates(s, m, e, d);
    }
  }

  /** The list after appending: pruned back to its cap when it overflows. */
  function Capped(patterns: seq<Entry>, cap: nat): (r: seq<Entry>)
    ensures |r| <= cap || r == patterns
  {
    if |patterns| > cap then PruneByConfidence(patterns, cap) else patterns
  }

  /** An appended list never exceeds its cap. */
  lemma CappedWithinCap(patterns: seq<Entry>, cap: nat)
    ensures |Capped(patterns, cap)| <= cap || |patterns| <= cap
    ensures |patterns| <= cap ==> Capped(patterns, cap) == patterns
  {
    if |patterns| > cap {
      PruneKeepsMostConfident(patterns, cap);
    }
  }

  /** The store key `find_similar_pattern` looks under: the type with an "s" appended unless it ends in one. */
  function ListKey(patternType: string): string
  {
    if EndsWith(patternType, "s") then patternType else patternType + "s"
  }

  /** The similarity test: equal, or either lower-cased text contains the other. */
  predicate Similar(e: Entry, pattern: string)
  {
    var existing := Lower(e.pattern.GetOr(""));
    var wanted := Lower(pattern);
    existing == wanted || Contains(wanted, existing) || Contains(existing, wanted)
  }

  function FirstSimilar(ps: seq<Entry>, pattern: string): (r: Option<nat>)
    ensures r.Some? ==> r.value < |ps| && Similar(ps[r.value], pattern)
    ensures r.Some? ==> forall j :: 0 <= j < r.value ==> !Similar(ps[j], pattern)
    ensures r.None? ==> forall j :: 0 <= j < |ps| ==> !Similar(ps[j], pattern)
  {
    if ps == [] then None
    else if Similar(ps[0], pattern) then Some(0)
    else
      match FirstSimilar(ps[1..], pattern)
      case None => None
      case Some(k) => Some(k + 1)
  }

  /** An entry whose pattern is missing or empty is "similar" to every pattern: "" is in any string. */
  lemma EmptyPatternMatchesEverything(e: Entry, pattern: string)
    requires e.pattern.GetOr("") == ""
    ensures Similar(e, pattern)
  {
    assert Occurs(Lower(pattern), Lower(e.pattern.GetOr("")), 0);
  }

  /** Which list of the store a query type or a new pattern's type names. */
  datatype Kind = Success | Anti | Domain | Elsewhere

  function KindOfKey(key: string): Kind
  {
    if key == SuccessKey then Success else if key == AntiKey then Anti
    else if key == DomainKey then Domain else Elsewhere
  }

  /** The entry `add_pattern` creates before its type-specific key is set. */
  function NewEntry(id: string, context: string, pattern: string, confidence: real,
                    sourceGen: Option<int>, sourceAgent: Option<string>, now: int): Entry
  {
    Entry(Some(id), None, Some(context), Some(pattern), None, Some(confidence), Some(1),
          Some(Parsed(now, true)), Some(Parsed(now, true)), sourceGen, sourceAgent, None, None, None, false)
  }

  /** A new entry is seen once, added and last seen at the same moment, with confidence 0.75 unless one is given. */
  lemma NewEntryDefaults(id: string, context: string, pattern: string, confidence: Option<real>,
                         sourceGen: Option<int>, sourceAgent: Option<string>, now: int)
    ensures var e := NewEntry(id, context, pattern, confidence.GetOr(DefaultConfidence), sourceGen, sourceAgent, now);
            && e.occurrences == Some(1) && e.addedAt == e.lastSeen && e.addedAt.Some?
            && e.confidence == Some(if confidence.Some? then confidence.value else 0.75)
            && e.context == Some(context) && e.pattern == Some(pattern)
            && e.sourceGeneration == sourceGen && e.sourceAgent == sourceAgent
  {
  }

  /** A repeat sighting: one more occurrence, seen now. */
  function Sighted(e: Entry, now: int): Entry
  {
    e.(occurrences := Some(e.occurrences.GetOr(1) + 1), lastSeen := Some(Parsed(now, true)))
  }

  /** Promotion after three sightings: confidence rises by 0.05, capped at 1.0. */
  function Promoted(c: real): (r: real)
    ensures c <= 1.0 ==> c <= r <= 1.0
    ensures r <= c + 0.05
  {
    MinReal(1.0, c + 0.05)
  }

  /** `p.get("last_seen") or p.get("added_at")`. */
  function AgeStamp(e: Entry): Option<Stamp>
  {
    if e.lastSeen.Some? then e.lastSeen else e.addedAt
  }

  /**
   * Whether `prune_patterns` keeps an entry: a confidence (1.0 when missing)
   * of at least the minimum, and, when there is a cutoff, a parseable age
   * stamp no earlier than it.
   */
  predicate KeptByPrune(e: Entry, minConfidence: real, cutoff: Option<int>)
  {
    !(e.confidence.GetOr(1.0) < minConfidence)
    && !(cutoff.Some? && AgeStamp(e).Some? && AgeStamp(e).value.Parsed? && AgeStamp(e).value.secs < cutoff.value)
  }

  function KeepFn(minConfidence: real, cutoff: Option<int>): Entry -> bool
  {
    (e: Entry) => KeptByPrune(e, minConfidence, cutoff)
  }

  /** Whether `decay_unused_patterns` lowers an entry: from a generation more than 2 back and seen at most once. */
  predicate DecayDue(e: Entry, currentGeneration: int)
  {
    e.sourceGeneration.Some? && e.sourceGeneration.value != 0
    && currentGeneration - e.sourceGeneration.value > 2
    && e.occurrences.GetOr(1) <= 1
  }

  function Decayed(e: Entry, currentGeneration: int): Entry
  {
    if DecayDue(e, currentGeneration)
    then e.(confidence := Some(MaxReal(0.1, e.confidence.GetOr(1.0) - DecayRate)))
    else e
  }

  /** Decay never raises a confidence, never takes it below 0.1, and touches only due entries. */
  lemma DecayBounds(e: Entry, g: int)
    ensures DecayDue(e, g) ==> Decayed(e, g).confidence.value >= 0.1
    ensures DecayDue(e, g) && e.confidence.GetOr(1.0) >= 0.1 ==> Decayed(e, g).confidence.value <= e.confidence.GetOr(1.0)
    ensures DecayDue(e, g) && e.confidence.GetOr(1.0) >= 0.2 ==> Decayed(e, g).confidence.value == e.confidence.GetOr(1.0) - DecayRate
    ensures !DecayDue(e, g) ==> Decayed(e, g) == e
  {
  }

  function DecayAll(ps: seq<Entry>, g: int): (r: seq<Entry>)
    ensures |r| == |ps|
    ensures forall i :: 0 <= i < |ps| ==> r[i] == Decayed(ps[i], g)
  {
    seq(|ps|, i requires 0 <= i < |ps| => Decayed(ps[i], g))
  }

  /** The filter a query applies: a context substring (when given) and a minimum confidence (when truthy, 0 when missing). */
  predicate MatchesQuery(e: Entry, context: Option<string>, minConfidence: Option<real>)
  {
    (!Given(context) || Contains(Lower(e.context.GetOr("")), Lower(context.value)))
    && (minConfidence.None? || minConfidence.value == 0.0 || !(e.confidence.GetOr(0.0) < minConfidence.value))
  }

  /** The matches of one list, tagged with `"type": key.rstrip("s")`. */
  function Matches(ps: seq<Entry>, key: string, context: Option<string>, minConfidence: Option<real>): (r: seq<Entry>)
    ensures forall i :: 0 <= i < |r| ==> MatchesQuery(r[i], context, minConfidence) && r[i].kind == Some(RStripChar(key, 's'))
    ensures forall i :: 0 <= i < |ps| && MatchesQuery(ps[i], context, minConfidence) ==> ps[i].(kind := Some(RStripChar(key, 's'))) in r
    ensures forall e :: e in r ==> exists i :: 0 <= i < |ps| && MatchesQuery(ps[i], context, minConfidence) && e == ps[i].(kind := Some(RStripChar(key, 's')))
    ensures |r| <= |ps|
  {
    if ps == [] then []
    else
      (if MatchesQuery(ps[0], context, minConfidence) then [ps[0].(kind := Some(RStripChar(key, 's')))] else [])
      + Matches(ps[1..], key, context, minConfidence)
  }

  datatype ListStats = ListStats(count: nat, avgConfidence: real)

  function SumConfidence(ps: seq<Entry>): real
  {
    if ps == [] then 0.0 else ps[0].confidence.GetOr(0.0) + SumConfidence(ps[1..])
  }

  /** `avg_confidence`: 0 for an empty list, missing confidences counting 0. */
  function AverageConfidence(ps: seq<Entry>): real
  {
    if ps == [] then 0.0 else SumConfidence(ps) / |ps| as real
  }

  lemma {:induction false} SumConfidenceBounds(ps: seq<Entry>, lo: real, hi: real)
    requires forall i :: 0 <= i < |ps| ==> lo <= ps[i].confidence.GetOr(0.0) <= hi
    ensures Times(|ps|, lo) <= SumConfidence(ps) <= Times(|ps|, hi)
  {
    if ps != [] {
      SumConfidenceBounds(ps[1..], lo, hi);
      assert Times(|ps|, lo) == Times(|ps[1..]|, lo) + lo && Times(|ps|, hi) == Times(|ps[1..]|, hi) + hi;
    }
  }

  /** The average lies between the smallest and largest confidence of the list. */
  lemma AverageWithinBounds(ps: seq<Entry>, lo: real, hi: real)
    requires ps != []
    requires forall i :: 0 <= i < |ps| ==> lo <= ps[i].confidence.GetOr(0.0) <= hi
    ensures lo <= AverageConfidence(ps) <= hi
  {
    SumConfidenceBounds(ps, lo, hi);
    AverageWithin(|ps|, SumConfidence(ps), lo, hi);
  }

  datatype Stats = Stats(success: ListStats, anti: ListStats, domainCount: nat,
                         generationsCompleted: int, lastUpdated: Option<Stamp>)

  datatype AddOutcome =
    | Added(entry: Entry)
    | Merged(index: nat, entry: Entry)
      /** The matched entry reached the promotion threshold without a confidence: `existing["confidence"]` raises KeyError. */
    | MissingConfidence

  datatype PruneCounts = PruneCounts(success: int, anti: int, domain: int)

  /** `prune_patterns`' loop over one list. */
  method FilterKept(ps: seq<Entry>, minConfidence: real, cutoff: Option<int>) returns (kept: seq<Entry>)
    ensures kept == Filter(ps, KeepFn(minConfidence, cutoff))
  {
    kept := [];
    var i := 0;
    while i < |ps|
      invariant 0 <= i <= |ps|
      invariant kept == Filter(ps[..i], KeepFn(minConfidence, cutoff))
    {
      FilterAppend(ps[..i], ps[i], KeepFn(minConfidence, cutoff));
      assert ps[..i + 1] == ps[..i] + [ps[i]];
      if KeptByPrune(ps[i], minConfidence, cutoff) {
        kept := kept + [ps[i]];
      }
      i := i + 1;
    }
    TakeAll(ps);
  }

  /** `decay_unused_patterns`' loop over one list. */
  method DecayList(ps: seq<Entry>, currentGeneration: int) returns (out: seq<Entry>, affected: nat)
    ensures out == DecayAll(ps, currentGeneration)
    ensures affected == CountIf(ps, (e: Entry) => DecayDue(e, currentGeneration))
  {
    out := [];
    affected := 0;
    var i := 0;
    while i < |ps|
      invariant 0 <= i <= |ps|
      invariant out == DecayAll(ps[..i], currentGeneration)
      invariant affected == CountIf(ps[..i], (e: Entry) => DecayDue(e, currentGeneration))
    {
      CountIfAppend(ps[..i], ps[i], (e: Entry) => DecayDue(e, currentGeneration));
      assert ps[..i + 1] == ps[..i] + [ps[i]];
      if DecayDue(ps[i], currentGeneration) {
        affected := affected + 1;
      }
      out := out + [Decayed(ps[i], currentGeneration)];
      i := i + 1;
    }
    TakeAll(ps);
  }

  class KnowledgeStore {
    var successPatterns: seq<Entry>
    var antiPatterns: seq<Entry>
    var domainKnowledge: seq<Entry>
    var generationsCompleted: int
    var created: Option<Stamp>
    var lastUpdated: Option<Stamp>

    /** `create_empty_store()`. */
    constructor (now: int)
      ensures successPatterns == [] && antiPatterns == [] && domainKnowledge == []
      ensures generationsCompleted == 0
      ensures created == Some(Parsed(now, true)) && lastUpdated == Some(Parsed(now, true))
    {
      successPatterns := [];
      antiPatterns := [];
      domainKnowledge := [];
      generationsCompleted := 0;
      created := Some(Parsed(now, true));
      lastUpdated := Some(Parsed(now, true));
    }

    /** `store.get(key, [])` for the store's three lists. */
    function ListOf(k: Kind): seq<Entry>
      reads this
    {
      match k
      case Success => successPatterns
      case Anti => antiPatterns
      case Domain => domainKnowledge
      case Elsewhere => []
    }

    /** `find_similar_pattern`: the index of the first similar entry of the list the type names. */
    function FindSimilarPattern(patternType: string, pattern: string): (r: Option<nat>)
      reads this
      ensures r.Some? ==> r.value < |ListOf(KindOfKey(ListKey(patternType)))|
      ensures r.Some? ==> Similar(ListOf(KindOfKey(ListKey(patternType)))[r.value], pattern)
      ensures r.Some? ==> forall j :: 0 <= j < r.value ==> !Similar(ListOf(KindOfKey(ListKey(patternType)))[j], pattern)
      ensures r.None? ==> forall e :: e in ListOf(KindOfKey(ListKey(patternType))) ==> !Similar(e, pattern)
    {
      FirstSimilar(ListOf(KindOfKey(ListKey(patternType))), pattern)
    }

    /** Every list within its cap: 50 success patterns, 25 anti-patterns, 100 domain insights. */
    predicate WithinCaps()
      reads this
    {
      |ListOf(Success)| <= MaxSuccessPatterns && |ListOf(Anti)| <= MaxAntiPatterns
      && |ListOf(Domain)| <= MaxDomainKnowledge
    }

    method SetList(k: Kind, ps: seq<Entry>)
      requires k != Elsewhere
      modifies this
      ensures ListOf(k) == ps
      ensures forall j :: j != k ==> ListOf(j) == old(ListOf(j))
      ensures generationsCompleted == old(generationsCompleted)
      ensures created == old(created) && lastUpdated == old(lastUpdated)
    {
      match k
      case Success => successPatterns := ps;
      case Anti => antiPatterns := ps;
      case Domain => domainKnowledge := ps;
    }

    /**
     * `add_pattern`.  A similar entry of the named list (which exists only
     * for the success and anti types) is sighted once more and promoted from
     * the third occurrence on; otherwise a new entry goes to the list its type
     * names, which is pruned back to its cap when it overflows.  `id` is the
     * short hash of "context:pattern".
     */
    method AddPattern(patternType: string, context: string, pattern: string, confidence: Option<real>,
                      sourceGen: Option<int>, sourceAgent: Option<string>, evidence: Option<string>,
                      impact: Option<string>, id: string, now: int) returns (outcome: AddOutcome)
      modifies this
      ensures old(WithinCaps()) ==> WithinCaps()
      ensures generationsCompleted == old(generationsCompleted) && created == old(created)
      ensures var k := KindOfKey(ListKey(patternType));
              var found := old(FindSimilarPattern(patternType, pattern));
              if found.Some? && old(ListOf(k))[found.value] != EmptyEntry then
                var e := Sighted(old(ListOf(k))[found.value], now);
                && (forall j :: j != k ==> ListOf(j) == old(ListOf(j)))
                && if e.occurrences.value >= PromotionThreshold && e.confidence.None? then
                     && outcome == MissingConfidence
                     && ListOf(k) == old(ListOf(k))[found.value := e]
                     && lastUpdated == old(lastUpdated)
                   else
                     var e' := if e.occurrences.value >= PromotionThreshold
                               then e.(confidence := Some(Promoted(e.confidence.value))) else e;
                     && outcome == Merged(found.value, e')
                     && ListOf(k) == old(ListOf(k))[found.value := e']
                     && lastUpdated == Some(Parsed(now, true))
              else
                var base := NewEntry(id, context, pattern, confidence.GetOr(DefaultConfidence), sourceGen, sourceAgent, now);
                && lastUpdated == Some(Parsed(now, true))
                && (patternType == "success_pattern" ==>
                      var e := base.(evidence := Some(if Given(evidence) then evidence.value else "Observed to work well"));
                      && outcome == Added(e)
                      && successPatterns == Capped(old(successPatterns) + [e], MaxSuccessPatterns)
                      && antiPatterns == old(antiPatterns) && domainKnowledge == old(domainKnowledge))
                && (patternType == "anti_pattern" ==>
                      var e := base.(impact := Some(if Given(impact) then impact.value else "Caused issues"));
                      && outcome == Added(e)
                      && antiPatterns == Capped(old(antiPatterns) + [e], MaxAntiPatterns)
                      && successPatterns == old(successPatterns) && domainKnowledge == old(domainKnowledge))
                && (patternType == "domain_knowledge" ==>
                      var e := base.(category := Some(context));
                      && outcome == Added(e)
                      && domainKnowledge == Capped(old(domainKnowledge) + [e], MaxDomainKnowledge)
                      && successPatterns == old(successPatterns) && antiPatterns == old(antiPatterns))
                && (patternType !in {"success_pattern", "anti_pattern", "domain_knowledge"} ==>
                      && outcome == Added(base)
                      && successPatterns == old(successPatterns) && antiPatterns == old(antiPatterns)
                      && domainKnowledge == old(domainKnowledge))
    {
      var k := KindOfKey(ListKey(patternType));
      var found := FindSimilarPattern(patternType, pattern);
      if found.Some? && ListOf(k)[found.value] != EmptyEntry {
        outcome := MergeSighting(k, found.value, now);
        return;
      }
      outcome := AddNew(patternType, context, pattern, confidence, sourceGen, sourceAgent, evidence, impact, id, now);
    }

    /** The branch of `add_pattern` for a similar entry: one more sighting, promoted at the threshold. */
    method MergeSighting(k: Kind, i: nat, now: int) returns (outcome: AddOutcome)
      requires i < |ListOf(k)|
      modifies this
      ensures old(WithinCaps()) ==> WithinCaps()
      ensures generationsCompleted == old(generationsCompleted) && created == old(created)
      ensures var e := Sighted(old(ListOf(k))[i], now);
              && (forall j :: j != k ==> ListOf(j) == old(ListOf(j)))
              && if e.occurrences.value >= PromotionThreshold && e.confidence.None? then
                   && outcome == MissingConfidence
                   && ListOf(k) == old(ListOf(k))[i := e]
                   && lastUpdated == old(lastUpdated)
                 else
                   var e' := if e.occurrences.value >= PromotionThreshold
                             then e.(confidence := Some(Promoted(e.confidence.value))) else e;
                   && outcome == Merged(i, e')
                   && ListOf(k) == old(ListOf(k))[i := e']
                   && lastUpdated == Some(Parsed(now, true))
    {
      var e := Sighted(ListOf(k)[i], now);
      SetList(k, ListOf(k)[i := e]);
      if e.occurrences.value >= PromotionThreshold {
        if e.confidence.None? {
          return MissingConfidence;
        }
        e := e.(confidence := Some(Promoted(e.confidence.value)));
        SetList(k, ListOf(k)[i := e]);
      }
      lastUpdated := Some(Parsed(now, true));
      return Merged(i, e);
    }

    /** The branch of `add_pattern` for a new entry: appended to its list, which is pruned back to its cap. */
    method AddNew(patternType: string, context: string, pattern: string, confidence: Option<real>,
                  sourceGen: Option<int>, sourceAgent: Option<string>, evidence: Option<string>,
                  impact: Option<string>, id: string, now: int) returns (outcome: AddOutcome)
      modifies this
      ensures old(WithinCaps()) ==> WithinCaps()
      ensures generationsCompleted == old(generationsCompleted) && created == old(created)
      ensures var base := NewEntry(id, context, pattern, confidence.GetOr(DefaultConfidence), sourceGen, sourceAgent, now);
              && lastUpdated == Some(Parsed(now, true))
              && (patternType == "success_pattern" ==>
                    var e := base.(evidence := Some(if Given(evidence) then evidence.value else "Observed to work well"));
                    && outcome == Added(e)
                    && successPatterns == Capped(old(successPatterns) + [e], MaxSuccessPatterns)
                    && antiPatterns == old(antiPatterns) && domainKnowledge == old(domainKnowledge))
              && (patternType == "anti_pattern" ==>
                    var e := base.(impact := Some(if Given(impact) then impact.value else "Caused issues"));
                    && outcome == Added(e)
                    && antiPatterns == Capped(old(antiPatterns) + [e], MaxAntiPatterns)
                    && successPatterns == old(successPatterns) && domainKnowledge == old(domainKnowledge))
              && (patternType == "domain_knowledge" ==>
                    var e := base.(category := Some(context));
                    && outcome == Added(e)
                    && domainKnowledge == Capped(old(domainKnowledge) + [e], MaxDomainKnowledge)
                    && successPatterns == old(successPatterns) && antiPatterns == old(antiPatterns))
              && (patternType !in {"success_pattern", "anti_pattern", "domain_knowledge"} ==>
                    && outcome == Added(base)
                    && successPatterns == old(successPatterns) && antiPatterns == old(antiPatterns)
                    && domainKnowledge == old(domainKnowledge))
    {
      var entry := NewEntry(id, context, pattern, confidence.GetOr(DefaultConfidence), sourceGen, sourceAgent, now);
      if patternType == "success_pattern" {
        entry := entry.(evidence := Some(if Given(evidence) then evidence.value else "Observed to work well"));
        CappedWithinCap(successPatterns + [entry], MaxSuccessPatterns);
        successPatterns := Capped(successPatterns + [entry], MaxSuccessPatterns);
      } else if patternType == "anti_pattern" {
        entry := entry.(impact := Some(if Given(impact) then impact.value else "Caused issues"));
        CappedWithinCap(antiPatterns + [entry], MaxAntiPatterns);
        antiPatterns := Capped(antiPatterns + [entry], MaxAntiPatterns);
      } else if patternType == "domain_knowledge" {
        entry := entry.(category := Some(context));
        CappedWithinCap(domainKnowledge + [entry], MaxDomainKnowledge);
        domainKnowledge := Capped(domainKnowledge + [entry], MaxDomainKnowledge);
      }
      lastUpdated := Some(Parsed(now, true));
      outcome := Added(entry);
    }

    /** The lists a query searches: the one its type names, or all three when no type is given. */
    function SearchedKeys(patternType: Option<string>): seq<string>
    {
      if Given(patternType) then [ListKey(patternType.value)] else [SuccessKey, AntiKey, DomainKey]
    }

    function Collected(keys: seq<string>, context: Option<string>, minConfidence: Option<real>): seq<Entry>
      reads this
    {
      if keys == [] then []
      else Matches(ListOf(KindOfKey(keys[0])), keys[0], context, minConfidence) + Collected(keys[1..], context, minConfidence)
    }

    /** `query_patterns`: the matching entries, tagged with their type, most confident first, cut to `limit`. */
    function QueryPatterns(patternType: Option<string>, context: Option<string>,
                           minConfidence: Option<real>, limit: int): seq<Entry>
      reads this
    {
      PyUpTo(Sorting.Sort(Collected(SearchedKeys(patternType), context, minConfidence), ByConfidence()), limit)
    }

    /** `get_stats`. */
    function GetStats(): (s: Stats)
      reads this
    {
      Stats(ListStats(|successPatterns|, AverageConfidence(successPatterns)),
            ListStats(|antiPatterns|, AverageConfidence(antiPatterns)),
            |domainKnowledge|, generationsCompleted, lastUpdated)
    }

    /**
     * `prune_patterns`: drops entries below the minimum confidence (0.60 by
     * default) and, when `max_age_days` is non-zero, entries last seen before
     * the cutoff; reports how many each list lost.
     */
    method PrunePatterns(minConfidence: Option<real>, maxAgeDays: Option<int>, now: int) returns (removed: PruneCounts)
      modifies this
      ensures var minC := minConfidence.GetOr(MinConfidence);
              var cutoff := if maxAgeDays.Some? && maxAgeDays.value != 0 then Some(now - maxAgeDays.value * 86400) else None;
              && successPatterns == Filter(old(successPatterns), KeepFn(minC, cutoff))
              && antiPatterns == Filter(old(antiPatterns), KeepFn(minC, cutoff))
              && domainKnowledge == Filter(old(domainKnowledge), KeepFn(minC, cutoff))
      ensures removed == PruneCounts(|old(successPatterns)| - |successPatterns|,
                                     |old(antiPatterns)| - |antiPatterns|,
                                     |old(domainKnowledge)| - |domainKnowledge|)
      ensures generationsCompleted == old(generationsCompleted) && created == old(created)
      ensures lastUpdated == Some(Parsed(now, true))
    {
      var minC := minConfidence.GetOr(MinConfidence);
      var cutoff := if maxAgeDays.Some? && maxAgeDays.value != 0 then Some(now - maxAgeDays.value * 86400) else None;
      var s0, a0, d0 := |successPatterns|, |antiPatterns|, |domainKnowledge|;
      successPatterns := FilterKept(successPatterns, minC, cutoff);
      antiPatterns := FilterKept(antiPatterns, minC, cutoff);
      domainKnowledge := FilterKept(domainKnowledge, minC, cutoff);
      removed := PruneCounts(s0 - |successPatterns|, a0 - |antiPatterns|, d0 - |domainKnowledge|);
      lastUpdated := Some(Parsed(now, true));
    }

    /** `decay_unused_patterns`: lowers old, unreinforced success and anti patterns; domain knowledge is untouched. */
    method DecayUnusedPatterns(currentGeneration: int, now: int) returns (affectedSuccess: nat, affectedAnti: nat)
      modifies this
      ensures successPatterns == DecayAll(old(successPatterns), currentGeneration)
      ensures antiPatterns == DecayAll(old(antiPatterns), currentGeneration)
      ensures domainKnowledge == old(domainKnowledge)
      ensures affectedSuccess == CountIf(old(successPatterns), (e: Entry) => DecayDue(e, currentGeneration))
      ensures affectedAnti == CountIf(old(antiPatterns), (e: Entry) => DecayDue(e, currentGeneration))
      ensures generationsCompleted == old(generationsCompleted) && created == old(created)
      ensures lastUpdated == Some(Parsed(now, true))
    {
      successPatterns, affectedSuccess := DecayList(successPatterns, currentGeneration);
      antiPatterns, affectedAnti := DecayList(antiPatterns, currentGeneration);
      lastUpdated := Some(Parsed(now, true));
    }
  }

  /** The domain list is looked up as "domain_knowledges", which the store does not have: domain insights are never merged. */
  lemma DomainInsightsNeverMerged(ks: KnowledgeStore, pattern: string)
    ensures ks.FindSimilarPattern(DomainKey, pattern).None?
  {
    assert DomainKey[|DomainKey| - 1] == 'e';
    assert ListKey(DomainKey) == "domain_knowledges";
    assert KindOfKey("domain_knowledges") == Elsewhere;
  }

  /** A query filtered to the type "domain_knowledge" searches "domain_knowledges" and finds nothing. */
  lemma DomainQueryFindsNothing(ks: KnowledgeStore, context: Option<string>, minConfidence: Option<real>, limit: int)
    ensures ks.QueryPatterns(Some(DomainKey), context, minConfidence, limit) == []
  {
    assert DomainKey[|DomainKey| - 1] == 'e';
    assert ListKey(DomainKey) == "domain_knowledges";
    assert KindOfKey("domain_knowledges") == Elsewhere;
    assert ks.Collected(["domain_knowledges"], context, minConfidence) == [];
  }

  /** Every entry of `out` passes the query's filters and carries the tag of one of the searched keys. */
  predicate TaggedMatches(out: seq<Entry>, keys: seq<string>, context: Option<string>, minConfidence: Option<real>)
  {
    forall e :: e in out ==> MatchesQuery(e, context, minConfidence) && exists k :: k in keys && e.kind == Some(RStripChar(k, 's'))
  }

  /** Every entry of a searched list that passes the filters is in `out`, tagged with its list's key. */
  predicate CollectsEvery(ks: KnowledgeStore, keys: seq<string>, out: seq<Entry>, context: Option<string>, minConfidence: Option<real>)
    reads ks
  {
    forall j, i :: 0 <= j < |keys| && 0 <= i < |ks.ListOf(KindOfKey(keys[j]))|
      && MatchesQuery(ks.ListOf(KindOfKey(keys[j]))[i], context, minConfidence)
      ==> ks.ListOf(KindOfKey(keys[j]))[i].(kind := Some(RStripChar(keys[j], 's'))) in out
  }

  /**
   * The entries a query collects before sorting: exactly the entries of the
   * searched lists that pass the filters, each tagged with its list's key
   * without the trailing "s".
   */
  lemma {:induction false} CollectedMembers(ks: KnowledgeStore, keys: seq<string>, context: Option<string>, minConfidence: Option<real>)
    ensures TaggedMatches(ks.Collected(keys, context, minConfidence), keys, context, minConfidence)
    ensures CollectsEvery(ks, keys, ks.Collected(keys, context, minConfidence), context, minConfidence)
  {
    if keys != [] {
      CollectedMembers(ks, keys[1..], context, minConfidence);
      var head := Matches(ks.ListOf(KindOfKey(keys[0])), keys[0], context, minConfidence);
      var tail := ks.Collected(keys[1..], context, minConfidence);
      assert ks.Collected(keys, context, minConfidence) == head + tail;
      forall j, i | 0 <= j < |keys| && 0 <= i < |ks.ListOf(KindOfKey(keys[j]))|
                    && MatchesQuery(ks.ListOf(KindOfKey(keys[j]))[i], context, minConfidence)
        ensures ks.ListOf(KindOfKey(keys[j]))[i].(kind := Some(RStripChar(keys[j], 's'))) in head + tail
      {
        if j > 0 {
          assert keys[j] == keys[1..][j - 1];
        }
      }
      forall e: Entry | e in head + tail
        ensures MatchesQuery(e, context, minConfidence) && exists k :: k in keys && e.kind == Some(RStripChar(k, 's'))
      {
        if e in head {
          assert keys[0] in keys;
        } else {
          var k :| k in keys[1..] && e.kind == Some(RStripChar(k, 's'));
          assert k in keys;
        }
      }
    }
  }

  /** A sub-multiset of tagged matches holds only tagged matches. */
  lemma TaggedMatchesWithin(out: seq<Entry>, all: seq<Entry>, keys: seq<string>, context: Option<string>, minConfidence: Option<real>)
    requires multiset(out) <= multiset(all) && TaggedMatches(all, keys, context, minConfidence)
    ensures TaggedMatches(out, keys, context, minConfidence)
  {
    forall e | e in out ensures e in all {
      assert e in multiset(out);
    }
  }

  /** The first `limit` of the entries sorted by confidence, as `[:limit]` takes them: a sorted sub-multiset dominating the rest. */
  lemma LimitedPrefix(all: seq<Entry>, limit: int)
    ensures var r := PyUpTo(Sorting.Sort(all, ByConfidence()), limit);
            && Sorting.Sorted(r, ByConfidence())
            && |r| == (if limit >= 0 then (if limit < |all| then limit else |all|) else Clamp(|all| + limit, |all|))
            && multiset(r) <= multiset(all)
            && (limit >= |all| ==> multiset(r) == multiset(all))
            && (forall e, d :: e in r && d in multiset(all) - multiset(r) ==> e.confidence.GetOr(0.0) >= d.confidence.GetOr(0.0))
  {
    var s := Sorting.Sort(all, ByConfidence());
    ByConfidenceIsOrder();
    Sorting.SortSorted(all, ByConfidence());
    var r := PyUpTo(s, limit);
    assert r == s[..|r|];
    SortedPrefix(all, s, |r|);
    if limit >= |all| {
      assert r == s;
    }
  }

  /**
   * `query_patterns`: the results are tagged entries of the searched lists
   * that pass the filters, most confident first; the limit is applied like
   * Python's `[:limit]`, every matching entry survives when the limit allows,
   * and no dropped match is more confident than a returned one.
   */
  lemma QueryPatternsSound(ks: KnowledgeStore, patternType: Option<string>, context: Option<string>,
                           minConfidence: Option<real>, limit: int)
    ensures var r := ks.QueryPatterns(patternType, context, minConfidence, limit);
            var keys := ks.SearchedKeys(patternType);
            var all := ks.Collected(keys, context, minConfidence);
            && TaggedMatches(r, keys, context, minConfidence)
            && CollectsEvery(ks, keys, all, context, minConfidence)
            && Sorting.Sorted(r, ByConfidence())
            && |r| == (if limit >= 0 then (if limit < |all| then limit else |all|) else Clamp(|all| + limit, |all|))
            && multiset(r) <= multiset(all)
            && (limit >= |all| ==> multiset(r) == multiset(all))
            && (forall e, d :: e in r && d in multiset(all) - multiset(r) ==> e.confidence.GetOr(0.0) >= d.confidence.GetOr(0.0))
  {
    var keys := ks.SearchedKeys(patternType);
    var all := ks.Collected(keys, context, minConfidence);
    CollectedMembers(ks, keys, context, minConfidence);
    LimitedPrefix(all, limit);
    var r := ks.QueryPatterns(patternType, context, minConfidence, limit);
    assert r == PyUpTo(Sorting.Sort(all, ByConfidence()), limit);
    TaggedMatchesWithin(r, all, keys, context, minConfidence);
  }

  /** Pruning leaves only entries it would keep, in their order, and pruning twice changes nothing more. */
  lemma PruneKeepsOnlyKept(ps: seq<Entry>, minConfidence: real, cutoff: Option<int>)
    ensures forall e :: e in Filter(ps, KeepFn(minConfidence, cutoff)) <==> e in ps && KeptByPrune(e, minConfidence, cutoff)
    ensures Filter(Filter(ps, KeepFn(minConfidence, cutoff)), KeepFn(minConfidence, cutoff)) == Filter(ps, KeepFn(minConfidence, cutoff))
  {
    forall e ensures e in Filter(ps, KeepFn(minConfidence, cutoff)) <==> e in ps && KeptByPrune(e, minConfidence, cutoff) {
      FilterMembers(ps, KeepFn(minConfidence, cutoff), e);
    }
    FilterIdempotent(ps, KeepFn(minConfidence, cutoff));
  }
}
