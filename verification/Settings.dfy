/**
 Limiter settings (concurrency-policy.ts): validation with defaults, workload
 lookup, and the fingerprint workers compare before they share a limiter.
 */
module LimiterSettings {
  import opened Prelude
  import opened Sums
  import opened Policy
  import opened PolicyTheorems

  /** A JavaScript value, as far as validation looks at it. `Other` is any value that is no safe integer. */
  datatype Value = Undefined | Null | Number(n: int) | Text(s: string) | Other

  datatype RawWorkload = NotARecord | RawWorkload(maxConcurrent: Value, reserved: Value, priority: Value,
                                                  maxWaitMs: Value)

  datatype RawWorkloads = NoWorkloads | NotRecords | Entries(entries: seq<(string, RawWorkload)>)

  datatype RawLimits = NotAnObject | RawLimits(
    maxConcurrent: Value, maxQueued: Value, workloads: RawWorkloads, defaultWorkload: Value)

  /** The workload an error is about, when it is about one. */
  datatype ConfigError = ConfigError(workload: Option<string>)

  const MAX_SAFE_INTEGER := 9007199254740991
  const DEFAULT_WORKLOAD := "default"

  predicate IsSafe(v: Value) {
    v.Number? && -MAX_SAFE_INTEGER <= v.n <= MAX_SAFE_INTEGER
  }

  predicate IsPositive(v: Value) {
    IsSafe(v) && v.n >= 1
  }

  predicate IsNonNegative(v: Value) {
    IsSafe(v) && v.n >= 0
  }

  // ----- what acceptable settings are, and what they resolve to -----

  function EntriesOf(raw: RawLimits): seq<(string, RawWorkload)>
    requires raw.RawLimits?
  {
    match raw.workloads
    case NoWorkloads => [(DEFAULT_WORKLOAD, RawWorkload(Undefined, Undefined, Undefined, Undefined))]
    case NotRecords => []
    case Entries(entries) => entries
  }

  /** Object keys are distinct. */
  ghost predicate DistinctNames(entries: seq<(string, RawWorkload)>) {
    forall i, j :: 0 <= i < j < |entries| ==> entries[i].0 != entries[j].0
  }

  predicate GoodEntry(limit: int, name: string, raw: RawWorkload) {
    && name != ""
    && raw.RawWorkload?
    && (raw.maxConcurrent.Undefined? || (IsPositive(raw.maxConcurrent) && raw.maxConcurrent.n <= limit))
    && (raw.reserved.Undefined? || (IsNonNegative(raw.reserved) && raw.reserved.n <= Filled(limit, raw).maxConcurrent))
    && (raw.priority.Undefined? || raw.priority.Null? || IsSafe(raw.priority))
    && (raw.maxWaitMs.Undefined? || IsPositive(raw.maxWaitMs))
  }

  function Filled(limit: int, raw: RawWorkload): Settings
    requires raw.RawWorkload?
  {
    Settings(
      if raw.maxConcurrent.Number? then raw.maxConcurrent.n else limit,
      if raw.reserved.Number? && raw.reserved.n >= 0 then raw.reserved.n else 0,
      if raw.priority.Number? then raw.priority.n else 0,
      if raw.maxWaitMs.Number? then Some(raw.maxWaitMs.n) else None)
  }

  ghost function Reservations(workloads: map<string, Settings>): map<string, int> {
    map w | w in workloads :: workloads[w].reserved
  }

  ghost function Workloads(limit: int, entries: seq<(string, RawWorkload)>): map<string, Settings>
    requires forall e :: e in entries ==> e.1.RawWorkload?
  {
    if entries == [] then map[]
    else
      var last := |entries| - 1;
      Workloads(limit, entries[..last])[entries[last].0 := Filled(limit, entries[last].1)]
  }

  function DefaultOf(raw: RawLimits): Option<string>
    requires raw.RawLimits?
  {
    var entries := EntriesOf(raw);
    if raw.defaultWorkload.Text? then Some(raw.defaultWorkload.s)
    else if exists i :: 0 <= i < |entries| && entries[i].0 == DEFAULT_WORKLOAD then Some(DEFAULT_WORKLOAD)
    else if |entries| == 1 then Some(entries[0].0)
    else None
  }

  ghost predicate Acceptable(raw: RawLimits) {
    && raw.RawLimits?
    && IsPositive(raw.maxConcurrent)
    && (raw.maxQueued.Undefined? || IsNonNegative(raw.maxQueued))
    && EntriesOf(raw) != []
    && (forall e :: e in EntriesOf(raw) ==> GoodEntry(raw.maxConcurrent.n, e.0, e.1))
    && Sum(Reservations(Workloads(raw.maxConcurrent.n, EntriesOf(raw)))) <= raw.maxConcurrent.n
    && (raw.defaultWorkload.Undefined?
        || (raw.defaultWorkload.Text? && exists e :: e in EntriesOf(raw) && e.0 == raw.defaultWorkload.s))
  }

  ghost function Resolved(raw: RawLimits): Limits
    requires Acceptable(raw)
  {
    Limits(raw.maxConcurrent.n,
           if raw.maxQueued.Number? then Some(raw.maxQueued.n) else None,
           DefaultOf(raw),
           Workloads(raw.maxConcurrent.n, EntriesOf(raw)))
  }

  // ----- resolveConcurrencyLimits -----

  function OptionalInt(v: Value): Option<int> {
    if v.Number? then Some(v.n) else None
  }

  /** The body of the validation loop, for one workload. */
  method ResolveEntry(limit: int, name: string, raw: RawWorkload) returns (r: Result<Settings, ConfigError>)
    requires 1 <= limit <= MAX_SAFE_INTEGER
    ensures r.Ok? <==> GoodEntry(limit, name, raw)
    ensures r.Ok? ==> r.value == Filled(limit, raw)
    ensures r.Err? ==> r.error.workload == if name == "" then None else Some(name)
  {
    if name == "" {
      return Err(ConfigError(None));
    }
    if raw.NotARecord? {
      return Err(ConfigError(Some(name)));
    }
    var ceiling := limit;
    if !raw.maxConcurrent.Undefined? {
      if !IsPositive(raw.maxConcurrent) {
        return Err(ConfigError(Some(name)));
      }
      ceiling := raw.maxConcurrent.n;
    }
    if ceiling > limit {
      return Err(ConfigError(Some(name)));
    }
    var reserved: nat := 0;
    if !raw.reserved.Undefined? {
      if !IsNonNegative(raw.reserved) {
        return Err(ConfigError(Some(name)));
      }
      reserved := raw.reserved.n;
    }
    if reserved > ceiling {
      return Err(ConfigError(Some(name)));
    }
    var priority := if raw.priority.Undefined? || raw.priority.Null? then Number(0) else raw.priority;
    if !IsSafe(priority) {
      return Err(ConfigError(Some(name)));
    }
    if !raw.maxWaitMs.Undefined? && !IsPositive(raw.maxWaitMs) {
      return Err(ConfigError(Some(name)));
    }
    r := Ok(Settings(ceiling, reserved, priority.n, OptionalInt(raw.maxWaitMs)));
  }

  lemma {:induction false} WorkloadsFacts(limit: int, entries: seq<(string, RawWorkload)>)
    requires forall e :: e in entries ==> e.1.RawWorkload?
    ensures Workloads(limit, entries).Keys == set e | e in entries :: e.0
    ensures forall w :: w in Workloads(limit, entries) ==>
              exists e :: e in entries && e.0 == w && Workloads(limit, entries)[w] == Filled(limit, e.1)
  {
    if entries != [] {
      var last := |entries| - 1;
      WorkloadsFacts(limit, entries[..last]);
      assert entries == entries[..last] + [entries[last]];
      var before, after := Workloads(limit, entries[..last]), Workloads(limit, entries);
      forall w | w in after ensures exists e :: e in entries && e.0 == w && after[w] == Filled(limit, e.1) {
        if w == entries[last].0 {
          assert entries[last] in entries;
        } else {
          var e :| e in entries[..last] && e.0 == w && before[w] == Filled(limit, e.1);
          assert e in entries;
        }
      }
    }
  }

  lemma NewReservation(workloads: map<string, Settings>, name: string, settings: Settings)
    requires name !in workloads
    ensures Sum(Reservations(workloads[name := settings])) == Sum(Reservations(workloads)) + settings.reserved
  {
    SumUpdate(Reservations(workloads), name, settings.reserved);
    assert Reservations(workloads[name := settings]) == Reservations(workloads)[name := settings.reserved];
  }

  /** The validation loop over the workloads. */
  method ResolveEntries(limit: int, entries: seq<(string, RawWorkload)>)
    returns (r: Result<(map<string, Settings>, int), ConfigError>)
    requires 1 <= limit <= MAX_SAFE_INTEGER && DistinctNames(entries)
    ensures r.Ok? <==> forall e :: e in entries ==> GoodEntry(limit, e.0, e.1)
    ensures r.Ok? ==> r.value.0 == Workloads(limit, entries) && r.value.1 == Sum(Reservations(r.value.0))
    ensures r.Err? && r.error.workload.Some? ==>
              exists e :: e in entries && e.0 == r.error.workload.value && !GoodEntry(limit, e.0, e.1)
  {
    var workloads: map<string, Settings> := map[];
    var totalReserved := 0;
    for i := 0 to |entries|
      invariant forall e :: e in entries[..i] ==> GoodEntry(limit, e.0, e.1)
      invariant workloads == Workloads(limit, entries[..i])
      invariant totalReserved == Sum(Reservations(workloads))
    {
      assert entries[i] in entries;
      var settings := ResolveEntry(limit, entries[i].0, entries[i].1);
      if settings.Err? {
        return Err(settings.error);
      }
      assert entries[..i + 1][..i] == entries[..i] && entries[..i + 1] == entries[..i] + [entries[i]];
      WorkloadsFacts(limit, entries[..i]);
      NewReservation(workloads, entries[i].0, settings.value);
      totalReserved := totalReserved + settings.value.reserved;
      workloads := workloads[entries[i].0 := settings.value];
    }
    assert entries[..|entries|] == entries;
    r := Ok((workloads, totalReserved));
  }

  /**
   `resolveConcurrencyLimits`: accepts exactly the acceptable settings, and blames a workload only
   if it is faulty.
   */
  method ResolveLimits(raw: RawLimits) returns (r: Result<Limits, ConfigError>)
    requires raw.RawLimits? ==> DistinctNames(EntriesOf(raw))
    ensures r.Ok? <==> Acceptable(raw)
    ensures r.Ok? ==> r.value == Resolved(raw)
    ensures r.Err? && r.error.workload.Some? ==>
              && raw.RawLimits? && IsPositive(raw.maxConcurrent)
              && exists e :: e in EntriesOf(raw) && e.0 == r.error.workload.value &&
                             !GoodEntry(raw.maxConcurrent.n, e.0, e.1)
  {
    if raw.NotAnObject? || !IsPositive(raw.maxConcurrent) {
      return Err(ConfigError(None));
    }
    if !raw.maxQueued.Undefined? && !IsNonNegative(raw.maxQueued) {
      return Err(ConfigError(None));
    }
    var entries := EntriesOf(raw);
    if |entries| == 0 {
      return Err(ConfigError(None));
    }
    var limit := raw.maxConcurrent.n;
    var resolved := ResolveEntries(limit, entries);
    if resolved.Err? {
      return Err(resolved.error);
    }
    var workloads := resolved.value.0;
    WorkloadsFacts(limit, entries);
    if resolved.value.1 > limit {
      return Err(ConfigError(None));
    }
    var default: Option<string> := None;
    if !raw.defaultWorkload.Undefined? {
      if !raw.defaultWorkload.Text? || raw.defaultWorkload.s !in workloads {
        return Err(ConfigError(None));
      }
      default := Some(raw.defaultWorkload.s);
    } else if DEFAULT_WORKLOAD in workloads {
      default := Some(DEFAULT_WORKLOAD);
    } else if |entries| == 1 {
      default := Some(entries[0].0);
    }
    r := Ok(Limits(limit, OptionalInt(raw.maxQueued), default, workloads));
  }

  lemma AcceptedSettingsAreGood(raw: RawLimits, w: string)
    requires Acceptable(raw) && w in Resolved(raw).workloads
    ensures var settings := Resolved(raw).workloads[w];
            0 <= settings.reserved <= settings.maxConcurrent <= Resolved(raw).maxConcurrent &&
            settings.maxConcurrent >= 1
  {
    var limit := Resolved(raw).maxConcurrent;
    WorkloadsFacts(limit, EntriesOf(raw));
    var e :| e in EntriesOf(raw) && e.0 == w && Resolved(raw).workloads[w] == Filled(limit, e.1);
    assert GoodEntry(limit, e.0, e.1);
  }

  lemma DefaultIsConfigured(raw: RawLimits)
    requires Acceptable(raw) && DefaultOf(raw).Some?
    ensures DefaultOf(raw).value in Resolved(raw).workloads
  {
    WorkloadsFacts(raw.maxConcurrent.n, EntriesOf(raw));
    var entries := EntriesOf(raw);
    if raw.defaultWorkload.Undefined? {
      assert forall i :: 0 <= i < |entries| ==> entries[i] in entries;
    }
  }

  /** Accepted settings start every limiter in a state that honours ceilings and reservations. */
  lemma ResolvedLimitsStartBounded(raw: RawLimits)
    requires Acceptable(raw)
    ensures Valid(Resolved(raw)) && Bounded(Resolved(raw), map[])
    ensures Resolved(raw).defaultWorkload.Some? ==> Resolved(raw).defaultWorkload.value in Resolved(raw).workloads
    ensures Resolved(raw).maxQueued.Some? ==> Resolved(raw).maxQueued.value >= 0
    ensures forall w :: w in Resolved(raw).workloads ==> Resolved(raw).workloads[w].maxConcurrent >= 1
  {
    var limits := Resolved(raw);
    forall w | w in limits.workloads
      ensures limits.workloads[w].reserved <= limits.workloads[w].maxConcurrent <= limits.maxConcurrent
      ensures limits.workloads[w].maxConcurrent >= 1
    {
      AcceptedSettingsAreGood(raw, w);
    }
    if DefaultOf(raw).Some? {
      DefaultIsConfigured(raw);
    }
    assert Shortfalls(limits, map[]) == Reservations(limits.workloads);
    assert Total(map[]) == 0;
  }

  // ----- what resolved settings say -----

  /** A number where one was given, else the default. */
  predicate Says(v: Value, default: int, n: int) {
    match v
    case Number(given) => n == given
    case _ => n == default
  }

  predicate SaysOptional(v: Value, n: Option<int>) {
    match v
    case Number(given) => n == Some(given)
    case _ => n == None
  }

  /**
   Every workload has the numbers it was given, a ceiling of the whole limit, no reservation and
   priority 0 by default.
   */
  lemma ResolvedWorkloadSaysWhatWasAsked(raw: RawLimits, name: string, entry: RawWorkload)
    requires Acceptable(raw) && DistinctNames(EntriesOf(raw)) && (name, entry) in EntriesOf(raw)
    ensures name in Resolved(raw).workloads
    ensures var w := Resolved(raw).workloads[name];
            && Says(entry.maxConcurrent, raw.maxConcurrent.n, w.maxConcurrent)
            && Says(entry.reserved, 0, w.reserved) && Says(entry.priority, 0, w.priority)
            && SaysOptional(entry.maxWaitMs, w.maxWaitMs)
  {
    var limit, entries := raw.maxConcurrent.n, EntriesOf(raw);
    WorkloadsFacts(limit, entries);
    assert GoodEntry(limit, name, entry);
    assert (name, entry).0 in Resolved(raw).workloads;
    var e :| e in entries && e.0 == name && Resolved(raw).workloads[name] == Filled(limit, e.1);
    var i :| 0 <= i < |entries| && entries[i] == e;
    var j :| 0 <= j < |entries| && entries[j] == (name, entry);
    assert i == j;
  }

  /**
   The limit, the queue bound and the names are those given; the default workload is the one named,
   else "default", else the only one.
   */
  lemma ResolvedLimitsSayWhatWasAsked(raw: RawLimits)
    requires Acceptable(raw)
    ensures var limits, entries := Resolved(raw), EntriesOf(raw);
            && limits.maxConcurrent == raw.maxConcurrent.n && SaysOptional(raw.maxQueued, limits.maxQueued)
            && limits.workloads.Keys == (set e | e in entries :: e.0)
            && (raw.defaultWorkload.Text? ==> limits.defaultWorkload == Some(raw.defaultWorkload.s))
            && (raw.defaultWorkload.Undefined? ==>
                  limits.defaultWorkload ==
                  if "default" in limits.workloads then Some("default")
                  else if |entries| == 1 then Some(entries[0].0) else None)
  {
    WorkloadsFacts(raw.maxConcurrent.n, EntriesOf(raw));
    var entries := EntriesOf(raw);
    assert forall i :: 0 <= i < |entries| ==> entries[i] in entries;
    if "default" in Resolved(raw).workloads {
      var e :| e in entries && e.0 == "default";
      var i :| 0 <= i < |entries| && entries[i] == e;
      assert 0 <= i < |entries| && entries[i].0 == DEFAULT_WORKLOAD;
    }
  }

  /** Within the ranges the documentation gives. */
  ghost predicate InRange(limits: Limits) {
    && 1 <= limits.maxConcurrent <= 9007199254740991
    && (limits.maxQueued.Some? ==> 0 <= limits.maxQueued.value <= 9007199254740991)
    && (forall w :: w in limits.workloads ==> w != "" && SettingsInRange(limits.maxConcurrent, limits.workloads[w]))
    && Sum(Reservations(limits.workloads)) <= limits.maxConcurrent
    && (limits.defaultWorkload.Some? ==> limits.defaultWorkload.value in limits.workloads)
  }

  predicate SettingsInRange(limit: int, w: Settings) {
    && w.reserved <= w.maxConcurrent && 1 <= w.maxConcurrent <= limit
    && -9007199254740991 <= w.priority <= 9007199254740991
    && (w.maxWaitMs.Some? ==> 1 <= w.maxWaitMs.value <= 9007199254740991)
  }

  /** Accepted settings are within the documented ranges. */
  lemma AcceptedSettingsAreInRange(raw: RawLimits)
    requires Acceptable(raw)
    ensures InRange(Resolved(raw)) && Resolved(raw).workloads != map[]
  {
    var limits := Resolved(raw);
    WorkloadsFacts(limits.maxConcurrent, EntriesOf(raw));
    forall w | w in limits.workloads ensures w != "" && SettingsInRange(limits.maxConcurrent, limits.workloads[w]) {
      var e :| e in EntriesOf(raw) && e.0 == w && limits.workloads[w] == Filled(limits.maxConcurrent, e.1);
      assert GoodEntry(limits.maxConcurrent, e.0, e.1);
    }
    if DefaultOf(raw).Some? {
      DefaultIsConfigured(raw);
    }
    assert EntriesOf(raw)[0] in EntriesOf(raw) && EntriesOf(raw)[0].0 in limits.workloads;
  }

  function Spelled(n: Option<int>): Value {
    if n.Some? then Number(n.value) else Undefined
  }

  function SpelledWorkload(w: Settings): RawWorkload {
    RawWorkload(Number(w.maxConcurrent), Number(w.reserved), Number(w.priority), Spelled(w.maxWaitMs))
  }

  function SpelledEntries(limits: Limits, names: seq<string>): seq<(string, RawWorkload)>
    requires forall i :: 0 <= i < |names| ==> names[i] in limits.workloads
  {
    seq(|names|, i requires 0 <= i < |names| => (names[i], SpelledWorkload(limits.workloads[names[i]])))
  }

  /** Settings that spell out the given limits, for any order of the workloads. */
  function SpelledOut(limits: Limits, names: seq<string>): RawLimits
    requires forall i :: 0 <= i < |names| ==> names[i] in limits.workloads
  {
    RawLimits(Number(limits.maxConcurrent), Spelled(limits.maxQueued),
              Entries(SpelledEntries(limits, names)),
              if limits.defaultWorkload.Some? then Text(limits.defaultWorkload.value) else Undefined)
  }

  lemma {:induction false} SpelledWorkloads(limits: Limits, names: seq<string>, entries: seq<(string, RawWorkload)>)
    requires forall i :: 0 <= i < |names| ==> names[i] in limits.workloads
    requires |entries| == |names|
    requires forall i :: 0 <= i < |names| ==> entries[i] == (names[i], SpelledWorkload(limits.workloads[names[i]]))
    ensures forall e :: e in entries ==> e.1.RawWorkload?
    ensures Workloads(limits.maxConcurrent, entries) == map w | w in names :: limits.workloads[w]
    decreases names
  {
    if names == [] {
      assert Workloads(limits.maxConcurrent, entries) == map[];
    } else {
      var last := |names| - 1;
      SpelledWorkloads(limits, names[..last], entries[..last]);
      assert names == names[..last] + [names[last]];
      assert Filled(limits.maxConcurrent, entries[last].1) == limits.workloads[names[last]];
    }
  }

  lemma SpelledEntriesAreGood(limits: Limits, names: seq<string>)
    requires InRange(limits) && Lists(names, limits.workloads.Keys)
    requires forall i :: 0 <= i < |names| ==> names[i] in limits.workloads
    ensures var entries := EntriesOf(SpelledOut(limits, names));
            && (forall e :: e in entries ==> GoodEntry(limits.maxConcurrent, e.0, e.1))
            && Workloads(limits.maxConcurrent, entries) == limits.workloads
  {
    var entries := EntriesOf(SpelledOut(limits, names));
    SpelledWorkloads(limits, names, entries);
    assert forall w :: w in names <==> w in Elems(names);
    assert (map w | w in names :: limits.workloads[w]) == limits.workloads;
    forall e | e in entries ensures GoodEntry(limits.maxConcurrent, e.0, e.1) {
      var i :| 0 <= i < |entries| && entries[i] == e;
      SpelledEntryIsGood(limits.maxConcurrent, names[i], limits.workloads[names[i]]);
    }
  }

  lemma SpelledEntryIsGood(limit: int, name: string, w: Settings)
    requires name != "" && SettingsInRange(limit, w) && limit <= MAX_SAFE_INTEGER
    ensures GoodEntry(limit, name, SpelledWorkload(w))
  {
  }

  lemma SpelledOutIsAcceptable(limits: Limits, names: seq<string>)
    requires InRange(limits) && Lists(names, limits.workloads.Keys) && names != []
    requires forall i :: 0 <= i < |names| ==> names[i] in limits.workloads
    requires limits.defaultWorkload.None? ==> "default" !in limits.workloads && |names| != 1
    ensures Acceptable(SpelledOut(limits, names))
  {
    var raw := SpelledOut(limits, names);
    SpelledEntriesAreGood(limits, names);
    SpelledDefault(limits, names);
    assert raw.maxConcurrent.n == limits.maxConcurrent && EntriesOf(raw) != [];
    assert IsPositive(raw.maxConcurrent) && (raw.maxQueued.Undefined? || IsNonNegative(raw.maxQueued));
    assert Sum(Reservations(Workloads(raw.maxConcurrent.n, EntriesOf(raw)))) <= raw.maxConcurrent.n;
  }

  /** Limits that are spelled out in full are accepted and resolve to themselves, so resolving is idempotent. */
  lemma SpelledOutLimitsResolveToThemselves(limits: Limits, names: seq<string>)
    requires InRange(limits) && Lists(names, limits.workloads.Keys) && names != []
    requires forall i :: 0 <= i < |names| ==> names[i] in limits.workloads
    requires limits.defaultWorkload.None? ==> "default" !in limits.workloads && |names| != 1
    ensures Acceptable(SpelledOut(limits, names)) && Resolved(SpelledOut(limits, names)) == limits
  {
    SpelledOutIsAcceptable(limits, names);
    SpelledEntriesAreGood(limits, names);
    SpelledDefault(limits, names);
    var again := Resolved(SpelledOut(limits, names));
    assert again.maxQueued == limits.maxQueued && again.workloads == limits.workloads;
    assert again.defaultWorkload == limits.defaultWorkload;
  }

  lemma SpelledDefault(limits: Limits, names: seq<string>)
    requires Lists(names, limits.workloads.Keys) && forall i :: 0 <= i < |names| ==> names[i] in limits.workloads
    requires limits.defaultWorkload.Some? ==> limits.defaultWorkload.value in limits.workloads
    requires limits.defaultWorkload.None? ==> "default" !in limits.workloads && |names| != 1
    ensures var raw := SpelledOut(limits, names);
            && DefaultOf(raw) == limits.defaultWorkload
            && (raw.defaultWorkload.Text? ==> exists e :: e in EntriesOf(raw) && e.0 == raw.defaultWorkload.s)
  {
    var entries := EntriesOf(SpelledOut(limits, names));
    if limits.defaultWorkload.Some? {
      assert limits.defaultWorkload.value in Elems(names);
      var i :| 0 <= i < |names| && names[i] == limits.defaultWorkload.value;
      assert entries[i] in entries;
    }
  }

  // ----- resolveWorkload -----

  function ResolveWorkload(limits: Limits, workload: Option<string>): (r: Result<(string, Settings), ConfigError>)
    ensures r.Ok? ==> r.value.0 in limits.workloads && r.value.1 == limits.workloads[r.value.0]
    ensures r.Ok? <==> SelectedName(workload, limits.defaultWorkload).Some?
                       && SelectedName(workload, limits.defaultWorkload).value in limits.workloads
    ensures r.Err? ==> r.error.workload == SelectedName(workload, limits.defaultWorkload)
    ensures r.Ok? && workload.Some? ==> r.value.0 == workload.value
    ensures r.Ok? && workload.None? ==> limits.defaultWorkload == Some(r.value.0)
  {
    match SelectedName(workload, limits.defaultWorkload)
    case None => Err(ConfigError(None))
    case Some(name) =>
      if name in limits.workloads then Ok((name, limits.workloads[name])) else Err(ConfigError(Some(name)))
  }

  /** `workload ?? limits.defaultWorkload`. */
  function SelectedName(workload: Option<string>, default: Option<string>): Option<string> {
    if workload.Some? then workload else default
  }

  // ----- concurrencyLimitsFingerprint -----

  /** Code unit order on strings, as `Array.prototype.sort` uses it. */
  predicate TextLess(a: string, b: string) {
    if b == "" then false
    else if a == "" then true
    else a[0] < b[0] || (a[0] == b[0] && TextLess(a[1..], b[1..]))
  }

  lemma {:induction false} TextLessIrreflexive(a: string)
    ensures !TextLess(a, a)
  {
    if a != "" {
      TextLessIrreflexive(a[1..]);
    }
  }

  lemma {:induction false} TextLessTotal(a: string, b: string)
    ensures a == b || TextLess(a, b) || TextLess(b, a)
    ensures !(TextLess(a, b) && TextLess(b, a))
  {
    if a != "" && b != "" {
      TextLessTotal(a[1..], b[1..]);
      assert a == [a[0]] + a[1..] && b == [b[0]] + b[1..];
    }
  }

  lemma {:induction false} TextLessTransitive(a: string, b: string, c: string)
    requires TextLess(a, b) && TextLess(b, c)
    ensures TextLess(a, c)
  {
    if a != "" && a[0] == b[0] == c[0] {
      TextLessTransitive(a[1..], b[1..], c[1..]);
    }
  }

  ghost predicate Sorted(names: seq<string>) {
    forall i, j :: 0 <= i < j < |names| ==> TextLess(names[i], names[j])
  }

  function InsertName(names: seq<string>, name: string): seq<string> {
    if names == [] || TextLess(name, names[0]) then [name] + names
    else [names[0]] + InsertName(names[1..], name)
  }

  /** The library sort. */
  function SortNames(names: seq<string>): seq<string> {
    if names == [] then [] else InsertName(SortNames(names[1..]), names[0])
  }

  lemma {:induction false} InsertNameSorted(names: seq<string>, name: string)
    requires Sorted(names) && name !in names
    ensures Sorted(InsertName(names, name))
    ensures Elems(InsertName(names, name)) == Elems(names) + {name}
  {
    if names != [] && !TextLess(name, names[0]) {
      var rest := InsertName(names[1..], name);
      InsertNameSorted(names[1..], name);
      TextLessTotal(name, names[0]);
      assert names == [names[0]] + names[1..];
      forall k | 0 <= k < |rest| ensures TextLess(names[0], rest[k]) {
        assert rest[k] in Elems(rest);
        assert rest[k] != name ==> rest[k] in names[1..];
      }
    } else if names != [] {
      forall k | 0 <= k < |names| ensures TextLess(name, names[k]) {
        if k > 0 { TextLessTransitive(name, names[0], names[k]); }
      }
      assert Elems([name] + names) == Elems(names) + {name};
    }
  }

  lemma {:induction false} SortNamesSorts(names: seq<string>)
    requires NoDuplicates(names)
    ensures Sorted(SortNames(names)) && Elems(SortNames(names)) == Elems(names)
  {
    if names != [] {
      SortNamesSorts(names[1..]);
      assert names == [names[0]] + names[1..];
      assert forall w :: w in SortNames(names[1..]) ==> w in Elems(SortNames(names[1..]));
      InsertNameSorted(SortNames(names[1..]), names[0]);
    }
  }

  lemma {:induction false} SortedUnique(a: seq<string>, b: seq<string>)
    requires Sorted(a) && Sorted(b) && Elems(a) == Elems(b)
    ensures a == b
  {
    if a == [] {
      ElemsEmpty(b);
    } else {
      assert a[0] in Elems(b) && b[0] in Elems(a);
      TextLessTotal(a[0], b[0]);
      assert a[0] == b[0];
      TextLessIrreflexive(a[0]);
      assert Elems(a[1..]) == Elems(a) - {a[0]};
      assert Elems(b[1..]) == Elems(b) - {b[0]};
      SortedUnique(a[1..], b[1..]);
    }
  }

  /** The value whose JSON text is the fingerprint. */
  datatype Fingerprint = Fingerprint(
    version: int, maxConcurrent: int, maxQueued: Option<int>, defaultWorkload: Option<string>,
    workloads: seq<(string, Settings)>)

  function FingerprintOf(limits: Limits, names: seq<string>): Fingerprint
    requires forall w :: w in SortNames(names) ==> w in limits.workloads
  {
    var sorted := SortNames(names);
    Fingerprint(1, limits.maxConcurrent, limits.maxQueued, limits.defaultWorkload,
                seq(|sorted|, i requires 0 <= i < |sorted| => (sorted[i], limits.workloads[sorted[i]])))
  }

  /** Two workers compute the same fingerprint exactly when they hold the same limits, whatever their key order. */
  lemma FingerprintIdentifiesLimits(a: Limits, namesA: seq<string>, b: Limits, namesB: seq<string>)
    requires Lists(namesA, a.workloads.Keys) && Lists(namesB, b.workloads.Keys)
    ensures forall w :: w in SortNames(namesA) ==> w in a.workloads
    ensures forall w :: w in SortNames(namesB) ==> w in b.workloads
    ensures FingerprintOf(a, namesA) == FingerprintOf(b, namesB) <==> a == b
  {
    SortNamesSorts(namesA);
    SortNamesSorts(namesB);
    var sortedA, sortedB := SortNames(namesA), SortNames(namesB);
    assert forall w :: w in sortedA ==> w in Elems(sortedA);
    assert forall w :: w in sortedB ==> w in Elems(sortedB);
    if a == b {
      SortedUnique(sortedA, sortedB);
    }
    if FingerprintOf(a, namesA) == FingerprintOf(b, namesB) {
      var rows, rowsB := FingerprintOf(a, namesA).workloads, FingerprintOf(b, namesB).workloads;
      assert |sortedA| == |rows| == |rowsB| == |sortedB|;
      forall i | 0 <= i < |sortedA|
        ensures sortedA[i] == sortedB[i] && a.workloads[sortedA[i]] == b.workloads[sortedB[i]]
      {
        assert rows[i] == rowsB[i];
      }
      assert sortedA == sortedB;
      forall w | w in a.workloads ensures w in b.workloads && a.workloads[w] == b.workloads[w] {
        assert w in Elems(sortedA);
        var i :| 0 <= i < |sortedA| && sortedA[i] == w;
      }
      assert a.workloads.Keys == b.workloads.Keys;
      assert a.workloads == b.workloads;
    }
  }
}
