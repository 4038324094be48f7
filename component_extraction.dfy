/** Component-name extraction of the two automatic PCB designers
  * (ai-easyeda-compiler/auto-pcb-designer-optimized.js and
  * auto-pcb-designer-original.js): the post-processing of the regular
  * expression matches, the optimized version's memo of extraction results,
  * its batches of parallel downloads and its retry counter.
  *
  * The regular expressions themselves are not modelled: each phase's
  * matches are given, in the order `matchAll` over the pattern list yields
  * them (pattern by pattern, left to right). They are ASCII letters, digits
  * and dashes, so `toUpperCase` is the ASCII `Upper`. */
module ComponentExtraction {
  import opened Wrappers
  import opened Strings
  import opened Seqs

  const GenericIc := "GENERIC-IC"

  /** The optimized version's blacklist of generic words. */
  const OptimizedBlacklist: set<string> := {"TEMP", "DATA", "MODE", "TIME", "UART", "GPIO", "HTTP", "WIFI", "BLUETOOTH"}
  /** The original version's, six words. */
  const OriginalBlacklist: set<string> := {"TEMP", "DATA", "MODE", "TIME", "UART", "GPIO"}

  /** A candidate is kept when it has at least 4 characters and is not a
    * blacklisted word. */
  predicate Acceptable(comp: string, blacklist: set<string>)
  {
    |comp| >= 4 && comp !in blacklist
  }

  /** The list the match loops build from `acc`: each match upper-cased,
    * appended when acceptable and not seen before. */
  function Gather(acc: seq<string>, matches: seq<string>, blacklist: set<string>): seq<string>
  {
    if |matches| == 0 then acc
    else
      var prev := Gather(acc, matches[..|matches| - 1], blacklist);
      var comp := Upper(matches[|matches| - 1]);
      if Acceptable(comp, blacklist) && comp !in prev then prev + [comp] else prev
  }

  predicate WellFormed(cs: seq<string>, blacklist: set<string>)
  {
    NoDups(cs) && forall k :: 0 <= k < |cs| ==> IsUpperCased(cs[k]) && Acceptable(cs[k], blacklist)
  }

  /** Gathering keeps the list upper-case, duplicate-free and acceptable; it
    * extends what it starts from; every upper-cased acceptable match ends up
    * in it; and it holds nothing else. */
  lemma {:induction false} GatherSpec(acc: seq<string>, matches: seq<string>, blacklist: set<string>)
    requires WellFormed(acc, blacklist)
    ensures WellFormed(Gather(acc, matches, blacklist), blacklist)
    ensures acc <= Gather(acc, matches, blacklist)
    ensures forall k :: 0 <= k < |matches| && Acceptable(Upper(matches[k]), blacklist) ==>
      Upper(matches[k]) in Gather(acc, matches, blacklist)
    ensures forall c :: c in Gather(acc, matches, blacklist) ==>
      c in acc || exists k :: 0 <= k < |matches| && c == Upper(matches[k])
  {
    if |matches| > 0 {
      var init := matches[..|matches| - 1];
      GatherSpec(acc, init, blacklist);
      var prev := Gather(acc, init, blacklist);
      var comp := Upper(matches[|matches| - 1]);
      assert IsUpperCased(comp);
      forall k | 0 <= k < |init| ensures init[k] == matches[k] { }
    }
  }

  /** Some longer candidate among `all` contains `c`. */
  predicate Partial(c: string, all: seq<string>)
  {
    exists o :: o in all && Contains(o, c) && |o| > |c|
  }

  /** The elements of `xs`, in order, that are not partial matches among
    * `all`. */
  function Keep(xs: seq<string>, all: seq<string>): seq<string>
  {
    if |xs| == 0 then []
    else
      var prev := Keep(xs[..|xs| - 1], all);
      var c := xs[|xs| - 1];
      if Partial(c, all) then prev else prev + [c]
  }

  /** The `filter` that removes partial matches: a candidate goes when some
    * other, longer candidate contains it. */
  function RemovePartials(cs: seq<string>): seq<string>
  {
    Keep(cs, cs)
  }

  lemma {:induction false} KeepSpec(xs: seq<string>, all: seq<string>)
    ensures forall k :: 0 <= k < |Keep(xs, all)| ==> Keep(xs, all)[k] in xs && !Partial(Keep(xs, all)[k], all)
    ensures forall c :: c in xs && !Partial(c, all) ==> c in Keep(xs, all)
    ensures NoDups(xs) ==> NoDups(Keep(xs, all))
  {
    if |xs| > 0 {
      var init, c := xs[..|xs| - 1], xs[|xs| - 1];
      assert xs == init + [c];
      KeepSpec(init, all);
      if NoDups(xs) {
        assert NoDups(init) by {
          assert forall a, b :: 0 <= a < b < |init| ==> init[a] == xs[a] && init[b] == xs[b];
        }
        assert c !in init by {
          assert forall a :: 0 <= a < |init| ==> init[a] == xs[a];
        }
      }
    }
  }

  /** No entry is a proper substring of another. */
  predicate NoPartials(r: seq<string>)
  {
    forall a, b :: a in r && b in r ==> !(Contains(b, a) && |b| > |a|)
  }

  /** The filter keeps only candidates, in their order and without repeats
    * when there were none; it keeps every candidate that no longer
    * candidate contains; and what it keeps has no partial matches left. */
  lemma RemovePartialsSpec(cs: seq<string>)
    ensures forall k :: 0 <= k < |RemovePartials(cs)| ==> RemovePartials(cs)[k] in cs
    ensures forall c :: c in cs && !Partial(c, cs) ==> c in RemovePartials(cs)
    ensures NoPartials(RemovePartials(cs))
    ensures NoDups(cs) ==> NoDups(RemovePartials(cs))
  {
    KeepSpec(cs, cs);
    var r := RemovePartials(cs);
    forall a, b | a in r && b in r ensures !(Contains(b, a) && |b| > |a|) {
      assert !Partial(a, cs);
      assert b in cs;
    }
  }

  /** `deduplicated.length > 0 ? deduplicated : ['GENERIC-IC']`. */
  function OrGeneric(cs: seq<string>): (r: seq<string>)
    ensures |r| > 0
    ensures |cs| > 0 ==> r == cs
  {
    if |cs| > 0 then cs else [GenericIc]
  }

  // ---------------------------------------------------------------------
  // The optimized extractComponents
  // ---------------------------------------------------------------------

  /** The components before the partial-match removal: the standard
    * patterns are consulted only when the priority patterns found nothing. */
  function OptimizedCandidates(priority: seq<string>, standard: seq<string>): seq<string>
  {
    var found := Gather([], priority, OptimizedBlacklist);
    if |found| == 0 then Gather([], standard, OptimizedBlacklist) else found
  }

  function OptimizedComponents(priority: seq<string>, standard: seq<string>): seq<string>
  {
    OrGeneric(RemovePartials(OptimizedCandidates(priority, standard)))
  }

  /** extractComponents, with its `components` list and `seen` set. */
  method ExtractComponentsOptimized(priority: seq<string>, standard: seq<string>) returns (result: seq<string>)
    ensures result == OptimizedComponents(priority, standard)
  {
    var components: seq<string> := [];
    var seen: set<string> := {};
    var i := 0;
    while i < |priority|
      invariant 0 <= i <= |priority|
      invariant components == Gather([], priority[..i], OptimizedBlacklist)
      invariant seen == set c | c in components
    {
      assert priority[..i + 1][..i] == priority[..i];
      var comp := Upper(priority[i]);
      if |comp| >= 4 && comp !in seen && comp !in OptimizedBlacklist {
        components := components + [comp];
        seen := seen + {comp};
      }
      i := i + 1;
    }
    assert priority[..i] == priority;
    if |components| == 0 {
      var j := 0;
      while j < |standard|
        invariant 0 <= j <= |standard|
        invariant components == Gather([], standard[..j], OptimizedBlacklist)
        invariant seen == set c | c in components
      {
        assert standard[..j + 1][..j] == standard[..j];
        var comp := Upper(standard[j]);
        if |comp| >= 4 && comp !in seen && comp !in OptimizedBlacklist {
          components := components + [comp];
          seen := seen + {comp};
        }
        j := j + 1;
      }
      assert standard[..j] == standard;
    }
    result := OrGeneric(RemovePartials(components));
  }

  /** The optimized result is never empty; it is upper-case and
    * duplicate-free; each entry has at least 4 characters and is not
    * blacklisted; and none is a proper substring of another. */
  lemma OptimizedComponentsSpec(priority: seq<string>, standard: seq<string>)
    ensures var r := OptimizedComponents(priority, standard);
      |r| > 0 && WellFormed(r, OptimizedBlacklist) && NoPartials(r)
  {
    var cs := OptimizedCandidates(priority, standard);
    OptimizedCandidatesWellFormed(priority, standard);
    RemovePartialsWellFormed(cs, OptimizedBlacklist);
    OrGenericWellFormed(RemovePartials(cs), OptimizedBlacklist);
  }

  lemma OptimizedCandidatesWellFormed(priority: seq<string>, standard: seq<string>)
    ensures WellFormed(OptimizedCandidates(priority, standard), OptimizedBlacklist)
  {
    GatherSpec([], priority, OptimizedBlacklist);
    GatherSpec([], standard, OptimizedBlacklist);
  }

  /** When a priority pattern found something, the standard matches do not
    * matter. */
  lemma PriorityFirst(priority: seq<string>, standard: seq<string>, other: seq<string>)
    requires |Gather([], priority, OptimizedBlacklist)| > 0
    ensures OptimizedComponents(priority, standard) == OptimizedComponents(priority, other)
  {
  }

  lemma OrGenericWellFormed(cs: seq<string>, blacklist: set<string>)
    requires GenericIc !in blacklist
    requires WellFormed(cs, blacklist) && NoPartials(cs)
    ensures WellFormed(OrGeneric(cs), blacklist) && NoPartials(OrGeneric(cs))
  {
    if |cs| == 0 {
      GenericWellFormed(blacklist);
    }
  }

  /** Removing partial matches keeps a well-formed list well-formed and
    * leaves no partial matches. */
  lemma RemovePartialsWellFormed(cs: seq<string>, blacklist: set<string>)
    requires WellFormed(cs, blacklist)
    ensures WellFormed(RemovePartials(cs), blacklist) && NoPartials(RemovePartials(cs))
  {
    RemovePartialsSpec(cs);
    var r := RemovePartials(cs);
    forall k | 0 <= k < |r| ensures IsUpperCased(r[k]) && Acceptable(r[k], blacklist) {
      var j :| 0 <= j < |cs| && cs[j] == r[k];
    }
  }

  lemma GenericWellFormed(blacklist: set<string>)
    requires GenericIc !in blacklist
    ensures WellFormed([GenericIc], blacklist)
  {
    var g := GenericIc;
    assert forall i :: 0 <= i < |g| ==> !IsLowerAscii(g[i]);
  }

  // ---------------------------------------------------------------------
  // The original extractComponents
  // ---------------------------------------------------------------------

  /** The known family prefixes of `/^(ESP|STM|ATMEGA|BME|BMP|MPU|LSM|LM|TL|AO|CD|SN)/`. */
  const FamilyPrefixes: seq<string> := ["ESP", "STM", "ATMEGA", "BME", "BMP", "MPU", "LSM", "LM", "TL", "AO", "CD", "SN"]

  predicate HasDigit(c: string) { exists i :: 0 <= i < |c| && IsDigit(c[i]) }

  predicate KnownFamily(c: string) { exists k :: 0 <= k < |FamilyPrefixes| && StartsWith(c, FamilyPrefixes[k]) }

  /** The original's filter: at least 4 characters, and a digit or a known
    * family prefix. */
  predicate LooksLikePart(c: string) { |c| >= 4 && (HasDigit(c) || KnownFamily(c)) }

  function FilterParts(cs: seq<string>): seq<string>
  {
    if |cs| == 0 then []
    else
      var prev := FilterParts(cs[..|cs| - 1]);
      var c := cs[|cs| - 1];
      if LooksLikePart(c) then prev + [c] else prev
  }

  /** The filter keeps exactly the candidates that look like part numbers,
    * and adds no repeats. */
  lemma {:induction false} FilterPartsSpec(cs: seq<string>)
    ensures forall k :: 0 <= k < |FilterParts(cs)| ==> FilterParts(cs)[k] in cs && LooksLikePart(FilterParts(cs)[k])
    ensures forall c :: c in cs && LooksLikePart(c) ==> c in FilterParts(cs)
    ensures NoDups(cs) ==> NoDups(FilterParts(cs))
  {
    if |cs| > 0 {
      var init, c := cs[..|cs| - 1], cs[|cs| - 1];
      assert cs == init + [c];
      FilterPartsSpec(init);
      if NoDups(cs) {
        assert NoDups(init) by {
          assert forall a, b :: 0 <= a < b < |init| ==> init[a] == cs[a] && init[b] == cs[b];
        }
        assert c !in init by {
          assert forall a :: 0 <= a < |init| ==> init[a] == cs[a];
        }
      }
    }
  }

  /** The original always runs both phases into one list. */
  function OriginalCandidates(priority: seq<string>, standard: seq<string>): seq<string>
  {
    Gather(Gather([], priority, OriginalBlacklist), standard, OriginalBlacklist)
  }

  function OriginalComponents(priority: seq<string>, standard: seq<string>): seq<string>
  {
    OrGeneric(RemovePartials(FilterParts(OriginalCandidates(priority, standard))))
  }

  /** The original extractComponents: both loops push into `components`. */
  method ExtractComponentsOriginal(priority: seq<string>, standard: seq<string>) returns (result: seq<string>)
    ensures result == OriginalComponents(priority, standard)
  {
    var components: seq<string> := [];
    var i := 0;
    while i < |priority|
      invariant 0 <= i <= |priority|
      invariant components == Gather([], priority[..i], OriginalBlacklist)
    {
      assert priority[..i + 1][..i] == priority[..i];
      var comp := Upper(priority[i]);
      if |comp| >= 4 && comp !in components && comp !in OriginalBlacklist {
        components := components + [comp];
      }
      i := i + 1;
    }
    assert priority[..i] == priority;
    var afterPriority := components;
    var j := 0;
    while j < |standard|
      invariant 0 <= j <= |standard|
      invariant components == Gather(afterPriority, standard[..j], OriginalBlacklist)
    {
      assert standard[..j + 1][..j] == standard[..j];
      var comp := Upper(standard[j]);
      if |comp| >= 4 && comp !in components && comp !in OriginalBlacklist {
        components := components + [comp];
      }
      j := j + 1;
    }
    assert standard[..j] == standard;
    result := OrGeneric(RemovePartials(FilterParts(components)));
  }

  /** What the two filters leave of well-formed candidates looks like part
    * numbers, is upper-case, not blacklisted and without repeats, and has no
    * partial matches; every part-like candidate that no longer part-like
    * candidate contains survives. */
  lemma FilteredSpec(cs: seq<string>, blacklist: set<string>)
    requires WellFormed(cs, blacklist)
    ensures var r := RemovePartials(FilterParts(cs));
      NoPartials(r) && NoDups(r)
      && (forall k :: 0 <= k < |r| ==> LooksLikePart(r[k]) && IsUpperCased(r[k]) && r[k] !in blacklist)
      && (forall c :: c in cs && LooksLikePart(c) && !Partial(c, FilterParts(cs)) ==> c in r)
  {
    var f := FilterParts(cs);
    FilterPartsSpec(cs);
    var r := RemovePartials(f);
    RemovePartialsSpec(f);
    forall k | 0 <= k < |r| ensures LooksLikePart(r[k]) && IsUpperCased(r[k]) && r[k] !in blacklist {
      assert r[k] in f;
      var j :| 0 <= j < |cs| && cs[j] == r[k];
    }
  }

  /** The original result is never empty; apart from the fallback every
    * entry is upper-case, has a digit or a known family prefix and is not
    * blacklisted; no entry is a proper substring of another; and the
    * priority matches come first in the list the filters start from. */
  lemma OriginalComponentsSpec(priority: seq<string>, standard: seq<string>)
    ensures var r := OriginalComponents(priority, standard);
      |r| > 0 && NoPartials(r) && NoDups(r)
      && (r == [GenericIc] || forall k :: 0 <= k < |r| ==>
            LooksLikePart(r[k]) && IsUpperCased(r[k]) && r[k] !in OriginalBlacklist)
    ensures Gather([], priority, OriginalBlacklist) <= OriginalCandidates(priority, standard)
    ensures var cs := OriginalCandidates(priority, standard);
      forall c :: c in cs && LooksLikePart(c) && !Partial(c, FilterParts(cs)) ==>
        c in OriginalComponents(priority, standard)
    ensures forall k :: 0 <= k < |priority| && Acceptable(Upper(priority[k]), OriginalBlacklist) ==>
      Upper(priority[k]) in OriginalCandidates(priority, standard)
    ensures forall k :: 0 <= k < |standard| && Acceptable(Upper(standard[k]), OriginalBlacklist) ==>
      Upper(standard[k]) in OriginalCandidates(priority, standard)
  {
    GatherSpec([], priority, OriginalBlacklist);
    GatherSpec(Gather([], priority, OriginalBlacklist), standard, OriginalBlacklist);
    var cs := OriginalCandidates(priority, standard);
    FilteredSpec(cs, OriginalBlacklist);
    var f := RemovePartials(FilterParts(cs));
    if |f| == 0 {
      assert OriginalComponents(priority, standard) == [GenericIc];
    }
  }

  // ---------------------------------------------------------------------
  // extractComponentsCached: a memo that forgets its oldest entry
  // ---------------------------------------------------------------------

  const CacheKeyLength: nat := 500
  const CacheCapacity: nat := 100

  /** `text.slice(0, 500)`. */
  function CacheKey(text: string): (k: string)
    ensures |k| <= CacheKeyLength && k <= text
    ensures |text| <= CacheKeyLength ==> k == text
    ensures |text| > CacheKeyLength ==> |k| == CacheKeyLength
  {
    if |text| <= CacheKeyLength then text else text[..CacheKeyLength]
  }

  /** `order` lists the keys of `entries` once each. */
  ghost predicate Indexed(order: seq<string>, entries: map<string, seq<string>>)
  {
    NoDups(order) && forall k :: k in order <==> k in entries
  }

  lemma InsertIndexed(order: seq<string>, entries: map<string, seq<string>>, key: string, v: seq<string>)
    requires Indexed(order, entries) && key !in entries
    ensures Indexed(order + [key], entries[key := v])
  {
  }

  lemma DropOldestIndexed(order: seq<string>, entries: map<string, seq<string>>)
    requires Indexed(order, entries) && |order| > 0
    ensures Indexed(order[1..], entries - {order[0]})
  {
    assert order == [order[0]] + order[1..];
  }

  /** The memo of extraction results, a JavaScript Map: `order` holds its
    * keys in insertion order (oldest first), `entries` its contents. */
  class ComponentCache {
    var order: seq<string>
    var entries: map<string, seq<string>>

    ghost predicate Valid()
      reads this
    {
      Indexed(order, entries) && |order| <= CacheCapacity
    }

    constructor ()
      ensures Valid() && order == [] && entries == map[]
    {
      order := [];
      entries := map[];
    }

    /** extractComponentsCached. `tokens` gives the priority and standard
      * matches the patterns find in a text. A hit returns the stored list
      * and changes nothing, even when the text differs from the stored one
      * after its first 500 characters. A miss extracts, inserts the key last,
      * and when the memo then holds more than 100 keys deletes the first
      * inserted one. */
    method ExtractCached(text: string, tokens: string -> (seq<string>, seq<string>)) returns (components: seq<string>)
      requires Valid()
      modifies this
      ensures Valid()
      ensures CacheKey(text) in old(entries) ==>
        components == old(entries)[CacheKey(text)] && order == old(order) && entries == old(entries)
      ensures CacheKey(text) !in old(entries) ==>
        components == OptimizedComponents(tokens(text).0, tokens(text).1)
      ensures CacheKey(text) !in old(entries) && |old(order)| < CacheCapacity ==>
        order == old(order) + [CacheKey(text)] && entries == old(entries)[CacheKey(text) := components]
      ensures CacheKey(text) !in old(entries) && |old(order)| == CacheCapacity ==>
        order == old(order)[1..] + [CacheKey(text)]
        && entries == old(entries)[CacheKey(text) := components] - {old(order)[0]}
    {
      var key := CacheKey(text);
      if key in entries {
        return entries[key];
      }
      var matches := tokens(text);
      components := ExtractComponentsOptimized(matches.0, matches.1);
      InsertIndexed(order, entries, key, components);
      order := order + [key];
      entries := entries[key := components];
      if |order| > CacheCapacity {
        DropOldestIndexed(order, entries);
        var first := order[0];
        assert first == old(order)[0];
        assert order[1..] == old(order)[1..] + [key];
        order := order[1..];
        entries := entries - {first};
      }
    }
  }

  // ---------------------------------------------------------------------
  // downloadDatasheetsParallel and downloadWithRetry
  // ---------------------------------------------------------------------

  const MaxParallelDownloads: nat := 3
  const RetryAttempts: nat := 2

  /** The outcome of one downloadWithRetry: how many times searchAndDownload
    * was called, the waits in milliseconds between the calls, and whether
    * the last call returned instead of throwing. */
  datatype RetryOutcome = RetryOutcome(calls: nat, waits: seq<nat>, succeeded: bool)

  /** downloadWithRetry from attempt number `attempts`; `throwsAt(k)` says
    * whether call number k of searchAndDownload throws. The error is never
    * passed on: after the last retry it is only logged. */
  function Retry(throwsAt: nat -> bool, attempts: nat): (r: RetryOutcome)
    decreases if attempts < RetryAttempts then RetryAttempts - attempts else 0
    ensures 1 <= r.calls <= 1 + (if attempts < RetryAttempts then RetryAttempts - attempts else 0)
    ensures |r.waits| == r.calls - 1
    ensures forall k :: 0 <= k < |r.waits| ==> r.waits[k] == 1000 * (attempts + k + 1)
    ensures forall n :: attempts <= n < attempts + r.calls - 1 ==> throwsAt(n)
    ensures r.succeeded <==> !throwsAt(attempts + r.calls - 1)
    ensures !r.succeeded ==> attempts + r.calls - 1 >= RetryAttempts
  {
    if !throwsAt(attempts) then RetryOutcome(1, [], true)
    else if attempts < RetryAttempts then
      var rest := Retry(throwsAt, attempts + 1);
      RetryOutcome(rest.calls + 1, [1000 * (attempts + 1)] + rest.waits, rest.succeeded)
    else RetryOutcome(1, [], false)
  }

  /** From the first attempt: at most three calls, waits of 1 and then 2
    * seconds, and a failure only when all three calls threw. */
  lemma RetryFromStart(throwsAt: nat -> bool)
    ensures var r := Retry(throwsAt, 0);
      r.calls <= 3 && r.waits == [1000, 2000][..r.calls - 1]
      && (!r.succeeded <==> throwsAt(0) && throwsAt(1) && throwsAt(2))
  {
    var r := Retry(throwsAt, 0);
    assert r.waits == [1000, 2000][..r.calls - 1];
  }

  /** downloadWithRetry(downloader, component) with the default attempt
    * count; `throwsAt(c, k)` says whether call number k for component c
    * throws. */
  function RetryOf(throwsAt: (string, nat) -> bool, component: string): RetryOutcome
  {
    Retry((n: nat) => throwsAt(component, n), 0)
  }

  /** Every batch holds one to three components, and only the last may hold
    * fewer than three. */
  predicate BatchSized<T>(bs: seq<seq<T>>)
  {
    forall k :: 0 <= k < |bs| ==>
      (1 <= |bs[k]| <= MaxParallelDownloads && (k < |bs| - 1 ==> |bs[k]| == MaxParallelDownloads))
  }

  /** One `Promise.allSettled` over a batch: every member's
    * downloadWithRetry runs to its end, whatever the others meet. */
  method SettleBatch(batch: seq<string>, throwsAt: (string, nat) -> bool) returns (outcomes: seq<RetryOutcome>)
    ensures |outcomes| == |batch|
    ensures forall k :: 0 <= k < |batch| ==> outcomes[k] == RetryOf(throwsAt, batch[k])
  {
    outcomes := [];
    var j := 0;
    while j < |batch|
      invariant 0 <= j <= |batch|
      invariant |outcomes| == j
      invariant forall k :: 0 <= k < j ==> outcomes[k] == RetryOf(throwsAt, batch[k])
    {
      outcomes := outcomes + [RetryOf(throwsAt, batch[j])];
      j := j + 1;
    }
  }

  /** downloadDatasheetsParallel: `components.slice(i, i + 3)` for
    * i = 0, 3, 6, ..., each batch settled before the next starts. The
    * batches cover the list in order, and every component gets its
    * retries. */
  method DownloadDatasheetsParallel(components: seq<string>, throwsAt: (string, nat) -> bool)
    returns (batches: seq<seq<string>>, outcomes: seq<RetryOutcome>)
    ensures Flatten(batches) == components && BatchSized(batches)
    ensures |outcomes| == |components|
    ensures forall k :: 0 <= k < |components| ==> outcomes[k] == RetryOf(throwsAt, components[k])
  {
    batches, outcomes := [], [];
    var i := 0;
    while i < |components|
      invariant 0 <= i <= |components|
      invariant Flatten(batches) == components[..i] && BatchSized(batches)
      invariant i < |components| ==> forall k :: 0 <= k < |batches| ==> |batches[k]| == MaxParallelDownloads
      invariant |outcomes| == i
      invariant forall k :: 0 <= k < i ==> outcomes[k] == RetryOf(throwsAt, components[k])
      decreases |components| - i
    {
      var end := if i + MaxParallelDownloads <= |components| then i + MaxParallelDownloads else |components|;
      var batch := components[i..end];
      var settled := SettleBatch(batch, throwsAt);
      FlattenSnoc(batches, batch);
      assert components[..end] == components[..i] + batch;
      batches := batches + [batch];
      outcomes := outcomes + settled;
      i := end;
    }
    assert components[..i] == components;
  }
}
