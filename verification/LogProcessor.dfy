/** Filtering, template de-duplication, aggregation and trimming of logs
    (python/app/infrastructure/log_processor.py). */
module LogProcessor {
  import opened Collections
  import opened StableSort
  import opened Text

  datatype LogEntry = LogEntry(timestamp: string, level: string, message: string, service: string, traceId: string)

  datatype ProcessedLogs = ProcessedLogs(
    entries: seq<LogEntry>, errorStats: map<string, nat>, totalCount: nat, dedupCount: nat, truncated: bool,
    maxChars: nat, currentChars: nat)

  /** Replaces the variable parts of a message by placeholders. */
  type Normalize = string -> string

  function TemplateKey(normalize: Normalize): LogEntry -> string
  {
    (e: LogEntry) => e.level + ":" + normalize(e.message)
  }

  // ---------- De-duplication ----------

  method DeduplicateLogs(normalize: Normalize, entries: seq<LogEntry>) returns (kept: seq<LogEntry>)
    ensures kept == FirstOccurrences(entries, TemplateKey(normalize))
  {
    var key := TemplateKey(normalize);
    var seen: set<string> := {};
    kept := [];
    for i := 0 to |entries|
      invariant kept == FirstOccurrences(entries[..i], key)
      invariant forall k :: k in seen <==> HasKey(entries[..i], key, k)
    {
      FirstOccurrencesNext(entries, i, key);
      if key(entries[i]) !in seen {
        seen := seen + {key(entries[i])};
        kept := kept + [entries[i]];
      }
    }
    assert entries[..|entries|] == entries;
  }

  /** Two entries count as duplicates when level and normalised message, written one after
      the other, read the same. */
  predicate Duplicates(normalize: Normalize, e: LogEntry, other: LogEntry)
  {
    e.level + ":" + normalize(e.message) == other.level + ":" + normalize(other.message)
  }

  lemma TemplateKept(normalize: Normalize, entries: seq<LogEntry>, e: LogEntry)
    requires e in entries
    ensures exists k :: k in FirstOccurrences(entries, TemplateKey(normalize)) && Duplicates(normalize, k, e)
  {
    var key := TemplateKey(normalize);
    var kept := FirstOccurrences(entries, key);
    var i :| 0 <= i < |entries| && entries[i] == e;
    assert HasKey(entries, key, key(e));
    FirstOccurrencesKeys(entries, key);
    var k :| 0 <= k < |kept| && key(kept[k]) == key(e);
    assert kept[k] in kept;
  }

  lemma FirstIsKept(normalize: Normalize, entries: seq<LogEntry>, e: LogEntry)
    requires e in FirstOccurrences(entries, TemplateKey(normalize))
    ensures exists i | 0 <= i < |entries| ::
              entries[i] == e && forall j :: 0 <= j < i ==> !Duplicates(normalize, entries[j], e)
  {
    var key := TemplateKey(normalize);
    FirstOccurrencesFirst(entries, key, e);
    var i :| 0 <= i < |entries| && entries[i] == e && forall j :: 0 <= j < i ==> key(entries[j]) != key(e);
    assert forall j :: 0 <= j < i ==> (key(entries[j]) != key(e) <==> !Duplicates(normalize, entries[j], e));
  }

  /** De-duplication keeps exactly the first entry of every template, in order, and a
      second pass changes nothing. */
  lemma {:induction false} KeepsFirstOfEachTemplate(normalize: Normalize, entries: seq<LogEntry>)
    ensures var key := TemplateKey(normalize); var kept := FirstOccurrences(entries, key);
            && (forall i, j :: 0 <= i < j < |kept| ==> !Duplicates(normalize, kept[i], kept[j]))
            && (forall e | e in entries :: exists k :: k in kept && Duplicates(normalize, k, e))
            && (forall e | e in kept ::
                  exists i | 0 <= i < |entries| ::
                    entries[i] == e && forall j :: 0 <= j < i ==> !Duplicates(normalize, entries[j], e))
            && FirstOccurrences(kept, key) == kept
  {
    var key := TemplateKey(normalize);
    var kept := FirstOccurrences(entries, key);
    FirstOccurrencesDistinct(entries, key);
    FirstOccurrencesKeys(entries, key);
    FirstOccurrencesOfDistinct(kept, key);
    forall i, j | 0 <= i < j < |kept| ensures !Duplicates(normalize, kept[i], kept[j])
    {
      assert key(kept[i]) != key(kept[j]);
    }
    forall e | e in entries ensures exists k :: k in kept && Duplicates(normalize, k, e)
    {
      TemplateKept(normalize, entries, e);
    }
    forall e | e in kept
      ensures exists i | 0 <= i < |entries| ::
                entries[i] == e && forall j :: 0 <= j < i ==> !Duplicates(normalize, entries[j], e)
    {
      FirstIsKept(normalize, entries, e);
    }
  }

  // ---------- Aggregation ----------

  function AtLevel(level: string): LogEntry -> bool
  {
    (e: LogEntry) => Upper(e.level) == level
  }

  /** The sum of all counters. */
  ghost function Total(stats: map<string, nat>): nat
    decreases |stats|
  {
    if stats == map[] then 0
    else
      var k :| k in stats;
      stats[k] + Total(stats - {k})
  }

  /** The sum does not depend on the order in which the counters are added. */
  lemma {:induction false} TotalSplit(stats: map<string, nat>, k: string)
    requires k in stats
    ensures Total(stats) == stats[k] + Total(stats - {k})
    decreases |stats|
  {
    var first :| first in stats && Total(stats) == stats[first] + Total(stats - {first});
    if first != k {
      TotalSplit(stats - {first}, k);
      TotalSplit(stats - {k}, first);
      assert stats - {first} - {k} == stats - {k} - {first};
    }
  }

  function Counter(stats: map<string, nat>, level: string): nat
  {
    if level in stats then stats[level] else 0
  }

  lemma TotalIncrement(stats: map<string, nat>, k: string)
    ensures Total(stats[k := Counter(stats, k) + 1]) == Total(stats) + 1
  {
    var more := stats[k := Counter(stats, k) + 1];
    TotalSplit(more, k);
    assert more - {k} == stats - {k};
    if k in stats {
      TotalSplit(stats, k);
    } else {
      assert stats - {k} == stats;
    }
  }

  /** One counter per level in upper case; together they account for every entry. */
  method AggregateErrors(entries: seq<LogEntry>) returns (stats: map<string, nat>)
    ensures forall level :: Counter(stats, level) == Count(entries, AtLevel(level))
    ensures forall level | level in stats :: stats[level] > 0
    ensures Total(stats) == |entries|
    ensures forall e | e in entries :: Upper(e.level) in stats
  {
    stats := map[];
    for i := 0 to |entries|
      invariant forall level :: Counter(stats, level) == Count(entries[..i], AtLevel(level))
      invariant forall level | level in stats :: stats[level] > 0
      invariant Total(stats) == i
      invariant forall k :: 0 <= k < i ==> Upper(entries[k].level) in stats
    {
      var level := Upper(entries[i].level);
      assert entries[..i + 1][..i] == entries[..i];
      TotalIncrement(stats, level);
      stats := stats[level := (if level in stats then stats[level] else 0) + 1];
    }
    assert entries[..|entries|] == entries;
  }

  // ---------- Filters ----------

  function Severity(level: string): int
  {
    match Upper(level)
    case "DEBUG" => 0
    case "INFO" => 1
    case "WARN" => 2
    case "ERROR" => 3
    case "FATAL" => 4
    case _ => 0
  }

  function AtLeast(minLevel: string): LogEntry -> bool
  {
    (e: LogEntry) => Severity(e.level) >= Severity(minLevel)
  }

  function OfTrace(traceId: string): LogEntry -> bool
  {
    (e: LogEntry) => e.traceId == traceId || Contains(e.message, traceId)
  }

  /** An empty minimum level or trace id filters nothing. */
  function Filtered(entries: seq<LogEntry>, minLevel: string, traceId: Option<string>): seq<LogEntry>
  {
    var byLevel := if minLevel == "" then entries else Filter(entries, AtLeast(minLevel));
    if traceId == None || traceId == Some("") then byLevel else Filter(byLevel, OfTrace(traceId.value))
  }

  /** What each minimum level lets through, named by levels. */
  lemma LevelsPassed(e: LogEntry, minLevel: string)
    ensures var level, least := Upper(e.level), Upper(minLevel);
            && (least == "FATAL" ==> (AtLeast(minLevel)(e) <==> level == "FATAL"))
            && (least == "ERROR" ==> (AtLeast(minLevel)(e) <==> level in {"ERROR", "FATAL"}))
            && (least == "WARN" ==> (AtLeast(minLevel)(e) <==> level in {"WARN", "ERROR", "FATAL"}))
            && (least == "INFO" ==> (AtLeast(minLevel)(e) <==> level in {"INFO", "WARN", "ERROR", "FATAL"}))
            && (least !in {"INFO", "WARN", "ERROR", "FATAL"} ==> AtLeast(minLevel)(e))
  {}

  lemma FilteredShrinks(entries: seq<LogEntry>, minLevel: string, traceId: Option<string>)
    ensures |Filtered(entries, minLevel, traceId)| <= |entries|
    ensures forall e :: e in Filtered(entries, minLevel, traceId) <==>
              e in entries && (minLevel == "" || AtLeast(minLevel)(e)) &&
                (traceId == None || traceId == Some("") ||
                 e.traceId == traceId.value || Contains(e.message, traceId.value))
  {
    var byLevel := if minLevel == "" then entries else Filter(entries, AtLeast(minLevel));
    FilterMembers(entries, AtLeast(minLevel));
    if traceId.Some? {
      FilterMembers(byLevel, OfTrace(traceId.value));
    }
  }

  // ---------- Trimming ----------

  function Chars(entries: seq<LogEntry>): nat
  {
    if entries == [] then 0 else Chars(entries[..|entries| - 1]) + |entries[|entries| - 1].message|
  }

  predicate Within(entries: seq<LogEntry>, maxEntries: nat, maxChars: nat)
  {
    |entries| <= maxEntries && Chars(entries) <= maxChars
  }

  /** ERROR and FATAL before WARN before INFO before everything else. */
  function Priority(): LogEntry -> real
  {
    (e: LogEntry) =>
      match Upper(e.level)
      case "ERROR" => 0.0
      case "FATAL" => 0.0
      case "WARN" => 1.0
      case "INFO" => 2.0
      case _ => 3.0
  }

  /** The longest prefix of xs within both budgets. */
  ghost predicate LongestWithin(prefix: seq<LogEntry>, xs: seq<LogEntry>, maxEntries: nat, maxChars: nat)
  {
    && prefix <= xs && Within(prefix, maxEntries, maxChars)
    && forall n :: |prefix| < n <= |xs| ==> !Within(xs[..n], maxEntries, maxChars)
  }

  lemma {:induction false} CharsAppend(xs: seq<LogEntry>, e: LogEntry)
    ensures Chars(xs + [e]) == Chars(xs) + |e.message|
  {
    assert (xs + [e])[..|xs|] == xs;
  }

  lemma {:induction false} CharsConcat(xs: seq<LogEntry>, ys: seq<LogEntry>)
    ensures Chars(xs + ys) == Chars(xs) + Chars(ys)
  {
    if ys == [] {
      assert xs + ys == xs;
    } else {
      var n := |ys| - 1;
      assert xs + ys == (xs + ys[..n]) + [ys[n]];
      CharsAppend(xs + ys[..n], ys[n]);
      CharsConcat(xs, ys[..n]);
    }
  }

  lemma CharsPrefix(xs: seq<LogEntry>, m: nat, n: nat)
    requires m <= n <= |xs|
    ensures Chars(xs[..m]) <= Chars(xs[..n])
  {
    CharsConcat(xs[..m], xs[m..n]);
    assert xs[..n] == xs[..m] + xs[m..n];
  }

  lemma {:induction false} CharsOfInsert(xs: seq<LogEntry>, e: LogEntry)
    ensures Chars(Insert(xs, e, Priority())) == Chars(xs) + |e.message|
  {
    if xs == [] || Priority()(xs[|xs| - 1]) <= Priority()(e) {
      CharsAppend(xs, e);
    } else {
      var n := |xs| - 1;
      CharsOfInsert(xs[..n], e);
      CharsAppend(Insert(xs[..n], e, Priority()), xs[n]);
    }
  }

  lemma {:induction false} CharsOfSort(xs: seq<LogEntry>)
    ensures Chars(Sort(xs, Priority())) == Chars(xs)
  {
    if xs != [] {
      CharsOfSort(xs[..|xs| - 1]);
      CharsOfInsert(Sort(xs[..|xs| - 1], Priority()), xs[|xs| - 1]);
    }
  }

  // ---------- What trimming keeps ----------

  predicate IsSevere(e: LogEntry)
  {
    Upper(e.level) == "ERROR" || Upper(e.level) == "FATAL"
  }

  predicate IsWarning(e: LogEntry)
  {
    Upper(e.level) == "WARN"
  }

  predicate IsInfo(e: LogEntry)
  {
    Upper(e.level) == "INFO"
  }

  /** What is kept over what: ERROR and FATAL over WARN over INFO over everything else. */
  predicate Outranks(e: LogEntry, other: LogEntry)
  {
    || (IsSevere(e) && !IsSevere(other))
    || (IsWarning(e) && !IsSevere(other) && !IsWarning(other))
    || (IsInfo(e) && !IsSevere(other) && !IsWarning(other) && !IsInfo(other))
  }

  /** Entries of the same rank as e. */
  function Alike(e: LogEntry): LogEntry -> bool
  {
    (other: LogEntry) => !Outranks(e, other) && !Outranks(other, e)
  }

  /** The most important entries: no entry left out outranks a kept one, the kept ones come
      in order of rank, and of each rank the first entries are kept, in input order. */
  ghost predicate KeepsMostImportant(entries: seq<LogEntry>, kept: seq<LogEntry>)
  {
    && (forall e :: multiset(kept)[e] <= multiset(entries)[e])
    && (forall d, k | LeftOut(entries, kept, d) && k in kept :: !Outranks(d, k))
    && (forall i, j :: 0 <= i < j < |kept| ==> !Outranks(kept[j], kept[i]))
    && (forall e :: Filter(kept, Alike(e)) <= Filter(entries, Alike(e)))
  }

  lemma RankOrder(e: LogEntry, other: LogEntry)
    ensures Outranks(e, other) <==> Priority()(e) < Priority()(other)
  {}

  lemma FirstOfRank(entries: seq<LogEntry>, kept: seq<LogEntry>, e: LogEntry)
    requires KeepsFirst(entries, kept, Priority(), Priority()(e))
    ensures Filter(kept, Alike(e)) <= Filter(entries, Alike(e))
  {
    forall other ensures WithKey(Priority(), Priority()(e))(other) <==> Alike(e)(other)
    {
      RankOrder(e, other);
      RankOrder(other, e);
    }
    FilterSame(kept, WithKey(Priority(), Priority()(e)), Alike(e));
    FilterSame(entries, WithKey(Priority(), Priority()(e)), Alike(e));
  }

  /** Truncation keeps the most important entries. */
  lemma {:induction false} TrimmedFairly(entries: seq<LogEntry>, kept: seq<LogEntry>, maxEntries: nat, maxChars: nat)
    requires LongestWithin(kept, Sort(entries, Priority()), maxEntries, maxChars)
    ensures KeepsMostImportant(entries, kept)
  {
    PrefixKeepsLeast(entries, kept, Priority());
    forall d, k | LeftOut(entries, kept, d) && k in kept ensures !Outranks(d, k)
    {
      RankOrder(d, k);
    }
    forall i, j | 0 <= i < j < |kept| ensures !Outranks(kept[j], kept[i])
    {
      RankOrder(kept[j], kept[i]);
    }
    forall e ensures Filter(kept, Alike(e)) <= Filter(entries, Alike(e))
    {
      FirstOfRank(entries, kept, e);
    }
  }

  // ---------- Taking what fits ----------

  method CharsOf(entries: seq<LogEntry>) returns (chars: nat)
    ensures chars == Chars(entries)
  {
    chars := 0;
    for i := 0 to |entries|
      invariant chars == Chars(entries[..i])
    {
      assert entries[..i + 1][..i] == entries[..i];
      chars := chars + |entries[i].message|;
    }
    assert entries[..|entries|] == entries;
  }

  /** Takes entries from the front until a budget is reached. */
  method TakeWithin(sorted: seq<LogEntry>, maxEntries: nat, maxChars: nat) returns (result: seq<LogEntry>, chars: nat)
    ensures LongestWithin(result, sorted, maxEntries, maxChars) && chars == Chars(result)
  {
    result, chars := [], 0;
    var n := if maxEntries < |sorted| then maxEntries else |sorted|;
    var i := 0;
    while i < n
      invariant i <= n && result == sorted[..i] && chars == Chars(result) <= maxChars
    {
      assert sorted[..i + 1] == sorted[..i] + [sorted[i]];
      CharsAppend(sorted[..i], sorted[i]);
      if chars + |sorted[i].message| > maxChars {
        forall m | i < m <= |sorted| ensures !Within(sorted[..m], maxEntries, maxChars)
        {
          CharsPrefix(sorted, i + 1, m);
        }
        return;
      }
      result, chars := result + [sorted[i]], chars + |sorted[i].message|;
      i := i + 1;
    }
  }

  /** Sorting does not help input that is over a budget: some entry is dropped. */
  lemma {:induction false} OverBudgetDrops(entries: seq<LogEntry>, kept: seq<LogEntry>, maxEntries: nat, maxChars: nat)
    requires !Within(entries, maxEntries, maxChars) &&
             LongestWithin(kept, Sort(entries, Priority()), maxEntries, maxChars)
    ensures |kept| < |entries|
  {
    var sorted := Sort(entries, Priority());
    CharsOfSort(entries);
    SortFacts(entries, Priority());
    assert |kept| == |sorted| ==> kept == sorted;
  }

  /** The result is the input when that fits; otherwise it is the longest fitting prefix of
      the stable priority sort. The flag says whether the input was over a budget, which is
      the same as whether an entry was dropped. */
  method TrimLogs(entries: seq<LogEntry>, maxEntries: nat, maxChars: nat)
      returns (result: seq<LogEntry>, truncated: bool)
    ensures truncated <==> !Within(entries, maxEntries, maxChars)
    ensures truncated <==> |result| < |entries|
    ensures !truncated ==> result == entries
    ensures truncated ==> LongestWithin(result, Sort(entries, Priority()), maxEntries, maxChars)
    ensures truncated ==> KeepsMostImportant(entries, result)
    ensures Within(result, maxEntries, maxChars)
  {
    var totalChars := CharsOf(entries);
    if |entries| <= maxEntries {
      if totalChars <= maxChars {
        return entries, false;
      }
    }
    var chars;
    result, chars := TakeWithin(Sort(entries, Priority()), maxEntries, maxChars);
    OverBudgetDrops(entries, result, maxEntries, maxChars);
    TrimmedFairly(entries, result, maxEntries, maxChars);
    truncated := |result| < |entries| || chars < totalChars;
  }

  /** Only one prefix is the longest within the budgets. */
  lemma LongestWithinUnique(a: seq<LogEntry>, b: seq<LogEntry>, xs: seq<LogEntry>, maxEntries: nat, maxChars: nat)
    requires LongestWithin(a, xs, maxEntries, maxChars) && LongestWithin(b, xs, maxEntries, maxChars)
    ensures a == b
  {
    assert a == xs[..|a|] && b == xs[..|b|];
  }

  // ---------- The pipeline ----------

  function Field(raw: map<string, string>, name: string, default: string): string
  {
    if name in raw then raw[name] else default
  }

  function Parse(raw: map<string, string>): LogEntry
  {
    LogEntry(Field(raw, "timestamp", ""), Field(raw, "level", "INFO"), Field(raw, "message", ""),
             Field(raw, "service", ""), Field(raw, "trace_id", ""))
  }

  /** A missing level reads as INFO, any other missing field as empty. */
  lemma ParseDefaults(raw: map<string, string>)
    ensures var e := Parse(raw);
            && e.level == (if "level" in raw then raw["level"] else "INFO")
            && e.message == (if "message" in raw then raw["message"] else "")
            && e.traceId == (if "trace_id" in raw then raw["trace_id"] else "")
            && e.service == (if "service" in raw then raw["service"] else "")
            && e.timestamp == (if "timestamp" in raw then raw["timestamp"] else "")
  {}

  function ParseAll(raws: seq<map<string, string>>): (entries: seq<LogEntry>)
    ensures |entries| == |raws|
  {
    seq(|raws|, i requires 0 <= i < |raws| => Parse(raws[i]))
  }

  lemma {:induction false} TrimmedDistinct<K>(entries: seq<LogEntry>, kept: seq<LogEntry>, key: LogEntry -> K)
    requires DistinctKeys(entries, key) && (kept == entries || kept <= Sort(entries, Priority()))
    ensures DistinctKeys(kept, key) && forall e :: e in kept ==> e in entries
  {
    if kept <= Sort(entries, Priority()) {
      SortKeepsDistinct(entries, Priority(), key);
      SortFacts(entries, Priority());
    }
  }

  /** What the counters of a result say about its input. */
  ghost predicate Accounts(normalize: Normalize, p: ProcessedLogs, entries: seq<LogEntry>, filtered: seq<LogEntry>)
  {
    var deduped := FirstOccurrences(filtered, TemplateKey(normalize));
    && p.totalCount == |entries| == p.dedupCount + |deduped|
    && (forall level :: Counter(p.errorStats, level) == Count(filtered, AtLevel(level)))
    && |p.entries| <= |deduped| <= Total(p.errorStats) == |filtered| <= |entries|
    && p.currentChars == Chars(p.entries)
    && DistinctKeys(p.entries, TemplateKey(normalize)) && (forall e :: e in p.entries ==> e in deduped)
  }

  method ProcessLogs(normalize: Normalize, raws: seq<map<string, string>>, minLevel: string, traceId: Option<string>,
                     maxEntries: nat, maxChars: nat) returns (p: ProcessedLogs)
    ensures Accounts(normalize, p, ParseAll(raws), Filtered(ParseAll(raws), minLevel, traceId))
    ensures Within(p.entries, maxEntries, maxChars) && p.maxChars == maxChars
    ensures var deduped := FirstOccurrences(Filtered(ParseAll(raws), minLevel, traceId), TemplateKey(normalize));
            && (p.truncated <==> !Within(deduped, maxEntries, maxChars))
            && (p.truncated ==> LongestWithin(p.entries, Sort(deduped, Priority()), maxEntries, maxChars))
            && (p.truncated ==> KeepsMostImportant(deduped, p.entries))
            && (!p.truncated ==> p.entries == deduped)
  {
    var entries := ParseAll(raws);
    var filtered := Filtered(entries, minLevel, traceId);
    FilteredShrinks(entries, minLevel, traceId);
    var deduped := DeduplicateLogs(normalize, filtered);
    var stats := AggregateErrors(filtered);
    var trimmed, truncated := TrimLogs(deduped, maxEntries, maxChars);
    var chars := CharsOf(trimmed);
    FirstOccurrencesDistinct(filtered, TemplateKey(normalize));
    TrimmedDistinct(deduped, trimmed, TemplateKey(normalize));
    p := ProcessedLogs(trimmed, stats, |entries|, |entries| - |deduped|, truncated, maxChars, chars);
  }

  // ---------- What dedup_count counts ----------

  /** The number of removed duplicates, exactly when the filters removed nothing: the count
      includes every entry that did not pass them. */
  lemma {:induction false} DedupCountExactly(normalize: Normalize, p: ProcessedLogs, entries: seq<LogEntry>,
                                             filtered: seq<LogEntry>)
    requires Accounts(normalize, p, entries, filtered)
    ensures p.dedupCount == |filtered| - |FirstOccurrences(filtered, TemplateKey(normalize))| <==>
            |filtered| == |entries|
    ensures p.dedupCount == (|filtered| - |FirstOccurrences(filtered, TemplateKey(normalize))|) +
            (|entries| - |filtered|)
  {}

  /** An input without any duplicate: one entry below the minimum level. */
  lemma FilteredEntryCountsAsDuplicate(normalize: Normalize, p: ProcessedLogs, e: LogEntry)
    requires e.level == "DEBUG" && Accounts(normalize, p, [e], Filtered([e], "WARN", None))
    ensures FirstOccurrences([e], TemplateKey(normalize)) == [e] && p.dedupCount == 1
  {
    FirstOccurrencesAppend([], e, TemplateKey(normalize));
    assert [] + [e] == [e];
    FilterAppend([], e, AtLeast("WARN"));
    assert Upper("DEBUG") == "DEBUG" && Upper("WARN") == "WARN";
    assert Filter([e], AtLeast("WARN")) == [];
  }
}
