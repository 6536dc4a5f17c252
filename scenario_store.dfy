/** The in-memory scenario store, the weekly downsampler and the choice of
    store (src/lib/supabase/scenarioRepository.ts).  Record ids and
    timestamps are parameters, standing for `createId` and the clock. */
module ScenarioStore {
  import opened Types
  import opened Env

  datatype ScenarioRecord = ScenarioRecord(
    id: string,
    userId: string,
    name: string,
    input: SimulationInput,
    summary: Summary,
    weeklySnapshots: seq<DaySnapshot>,
    createdAt: string,
    updatedAt: string,
    parentScenarioId: Option<string>,
    branchFromDay: Option<int>)

  /** What a caller saves; an absent or null parent or branch day is `None`. */
  datatype SavePayload = SavePayload(
    userId: string,
    name: string,
    input: SimulationInput,
    summary: Summary,
    weeklySnapshots: seq<DaySnapshot>,
    parentScenarioId: Option<string>,
    branchFromDay: Option<int>)

  /** A day on the weekly grid; `day % 7 === 0` in JavaScript, where the
      remainder keeps the dividend's sign. */
  predicate OnWeek(s: DaySnapshot) {
    JsRem(s.day, 7) == 0
  }

  /** `downsampleToWeekly`: the snapshots on the weekly grid, in order. */
  function DownsampleToWeekly(snapshots: seq<DaySnapshot>): (r: seq<DaySnapshot>)
    ensures |r| <= |snapshots|
    ensures forall k :: 0 <= k < |r| ==> OnWeek(r[k]) && r[k] in snapshots
  {
    if |snapshots| == 0 then []
    else (if OnWeek(snapshots[0]) then [snapshots[0]] else []) + DownsampleToWeekly(snapshots[1..])
  }

  /** Downsampling splits over concatenation, keeps a snapshot on the grid
      and drops one off it: together these say it keeps exactly the
      snapshots on the grid, in their order. */
  lemma {:induction false} DownsampleAppend(a: seq<DaySnapshot>, b: seq<DaySnapshot>)
    ensures DownsampleToWeekly(a + b) == DownsampleToWeekly(a) + DownsampleToWeekly(b)
  {
    if |a| == 0 {
      assert a + b == b;
    } else {
      var head := if OnWeek(a[0]) then [a[0]] else [];
      DownsampleAppend(a[1..], b);
      assert (a + b)[0] == a[0] && (a + b)[1..] == a[1..] + b;
      assert DownsampleToWeekly(a + b) == head + DownsampleToWeekly(a[1..] + b);
      assert DownsampleToWeekly(a) == head + DownsampleToWeekly(a[1..]);
    }
  }

  lemma DownsampleSingle(s: DaySnapshot)
    ensures DownsampleToWeekly([s]) == if OnWeek(s) then [s] else []
  {
    assert [s][1..] == [];
  }

  /** A list all on the grid is kept whole, so downsampling twice is
      downsampling once. */
  lemma {:induction false} DownsampleKeepsWeekly(snapshots: seq<DaySnapshot>)
    requires forall k :: 0 <= k < |snapshots| ==> OnWeek(snapshots[k])
    ensures DownsampleToWeekly(snapshots) == snapshots
  {
    if |snapshots| > 0 {
      DownsampleKeepsWeekly(snapshots[1..]);
    }
  }

  lemma DownsampleIdempotent(snapshots: seq<DaySnapshot>)
    ensures DownsampleToWeekly(DownsampleToWeekly(snapshots)) == DownsampleToWeekly(snapshots)
  {
    DownsampleKeepsWeekly(DownsampleToWeekly(snapshots));
  }

  /** Negative days on the grid are kept too: JavaScript's remainder of -14
      by 7 is -0, which equals 0. */
  lemma NegativeWeekKept(s: DaySnapshot)
    requires s.day == -14
    ensures DownsampleToWeekly([s]) == [s]
  {
    DownsampleSingle(s);
  }

  /** The record `save` builds. */
  function RecordOf(payload: SavePayload, id: string, now: string): (r: ScenarioRecord)
    ensures r.id == id && r.userId == payload.userId && r.name == payload.name
    ensures r.input == payload.input && r.summary == payload.summary
    ensures r.weeklySnapshots == DownsampleToWeekly(payload.weeklySnapshots)
    ensures r.createdAt == now && r.updatedAt == now
    ensures r.parentScenarioId == payload.parentScenarioId && r.branchFromDay == payload.branchFromDay
  {
    ScenarioRecord(id, payload.userId, payload.name, payload.input, payload.summary,
                   DownsampleToWeekly(payload.weeklySnapshots), now, now,
                   payload.parentScenarioId, payload.branchFromDay)
  }

  /** The records of one user, in store order. */
  function OwnedBy(rows: seq<ScenarioRecord>, userId: string): (r: seq<ScenarioRecord>)
    ensures |r| <= |rows|
    ensures forall k :: 0 <= k < |r| ==> r[k].userId == userId
  {
    if |rows| == 0 then []
    else (if rows[0].userId == userId then [rows[0]] else []) + OwnedBy(rows[1..], userId)
  }

  /** A record is listed for a user exactly when it is stored and is theirs. */
  lemma {:induction false} OwnedByMembers(rows: seq<ScenarioRecord>, userId: string, x: ScenarioRecord)
    ensures x in OwnedBy(rows, userId) <==> x in rows && x.userId == userId
  {
    if |rows| > 0 {
      OwnedByMembers(rows[1..], userId, x);
      assert rows == [rows[0]] + rows[1..];
    }
  }

  /** A new record at the front is listed first for its owner and for no one
      else. */
  lemma OwnedByPrepend(row: ScenarioRecord, rows: seq<ScenarioRecord>, userId: string)
    ensures OwnedBy([row] + rows, userId) ==
            (if row.userId == userId then [row] else []) + OwnedBy(rows, userId)
  {
    assert ([row] + rows)[1..] == rows;
  }

  /** `find` by id: the first record with that id. */
  function FindById(rows: seq<ScenarioRecord>, id: string): (r: Option<ScenarioRecord>)
    ensures r.Some? ==> r.value in rows && r.value.id == id
    ensures r.None? <==> forall k :: 0 <= k < |rows| ==> rows[k].id != id
  {
    if |rows| == 0 then None
    else if rows[0].id == id then Some(rows[0])
    else FindById(rows[1..], id)
  }

  /** `find` returns the first match, not a later one. */
  lemma {:induction false} FindFirst(rows: seq<ScenarioRecord>, id: string, i: int)
    requires 0 <= i < |rows| && rows[i].id == id
    requires forall j :: 0 <= j < i ==> rows[j].id != id
    ensures FindById(rows, id) == Some(rows[i])
  {
    if i > 0 {
      FindFirst(rows[1..], id, i - 1);
    }
  }

  /** `load`: the record with that id if the requesting user owns it. */
  function LoadFrom(rows: seq<ScenarioRecord>, scenarioId: string, userId: string): Option<ScenarioRecord> {
    match FindById(rows, scenarioId)
    case None => None
    case Some(r) => if r.userId != userId then None else Some(r)
  }

  /** A load succeeds only with a stored record of that id owned by the
      requester; an unknown id, or a first match owned by someone else,
      gives nothing. */
  lemma LoadCases(rows: seq<ScenarioRecord>, scenarioId: string, userId: string)
    ensures var r := LoadFrom(rows, scenarioId, userId);
            && (r.Some? ==> r.value in rows && r.value.id == scenarioId && r.value.userId == userId)
            && ((forall k :: 0 <= k < |rows| ==> rows[k].id != scenarioId) ==> r.None?)
            && (r.None? <==> FindById(rows, scenarioId).None? || FindById(rows, scenarioId).value.userId != userId)
  {
  }

  /** After saving a record with an id no stored record has, its owner loads
      it back, anyone else gets nothing, and loads of every other id are as
      before. */
  lemma SaveThenLoad(row: ScenarioRecord, rows: seq<ScenarioRecord>, scenarioId: string, userId: string)
    requires forall k :: 0 <= k < |rows| ==> rows[k].id != row.id
    ensures LoadFrom([row] + rows, row.id, row.userId) == Some(row)
    ensures userId != row.userId ==> LoadFrom([row] + rows, row.id, userId).None?
    ensures scenarioId != row.id ==> LoadFrom([row] + rows, scenarioId, userId) == LoadFrom(rows, scenarioId, userId)
  {
    assert ([row] + rows)[1..] == rows;
  }

  /** `InMemoryScenarioStore`: its records, newest first. */
  class InMemoryScenarioStore {
    var scenarios: seq<ScenarioRecord>

    constructor()
      ensures scenarios == []
    {
      scenarios := [];
    }

    /** `save`: builds the record and puts it in front of the others. */
    method Save(payload: SavePayload, id: string, now: string) returns (row: ScenarioRecord)
      modifies this
      ensures row == RecordOf(payload, id, now)
      ensures scenarios == [row] + old(scenarios)
    {
      row := RecordOf(payload, id, now);
      scenarios := [row] + scenarios;
    }

    /** `list`. */
    method List(userId: string) returns (r: seq<ScenarioRecord>)
      ensures r == OwnedBy(scenarios, userId)
    {
      r := OwnedBy(scenarios, userId);
    }

    /** `load`. */
    method Load(scenarioId: string, userId: string) returns (r: Option<ScenarioRecord>)
      ensures r == LoadFrom(scenarios, scenarioId, userId)
    {
      r := LoadFrom(scenarios, scenarioId, userId);
    }
  }

  // ---------------------------------------------------------------------
  // Choosing a store

  datatype SupabaseConfig = SupabaseConfig(url: string, apiKey: string, authToken: string)

  /** The store `createScenarioStore` picks: a remote one with its
      configuration, or the in-memory singleton. */
  datatype StoreChoice = Remote(config: SupabaseConfig) | Memory

  /** A user access token with a URL and an anonymous key. */
  predicate UserTokenConfigured(env: Env) {
    Truthy(env, "NEXT_PUBLIC_SUPABASE_URL") && Truthy(env, "NEXT_PUBLIC_SUPABASE_ANON_KEY") &&
    Truthy(env, "FUTURE_WALLET_SUPABASE_ACCESS_TOKEN")
  }

  /** A URL and a service-role key, outside production, with the explicit
      opt-in flag set to `'true'`. */
  predicate ServiceRoleAllowed(env: Env) {
    Truthy(env, "NEXT_PUBLIC_SUPABASE_URL") && Truthy(env, "SUPABASE_SERVICE_ROLE_KEY") &&
    NonProduction(env) &&
    "FUTURE_WALLET_ALLOW_SERVICE_ROLE_SCENARIO_STORE" in env &&
    env["FUTURE_WALLET_ALLOW_SERVICE_ROLE_SCENARIO_STORE"] == "true"
  }

  function SelectScenarioStore(env: Env): StoreChoice {
    if UserTokenConfigured(env) then
      Remote(SupabaseConfig(env["NEXT_PUBLIC_SUPABASE_URL"], env["NEXT_PUBLIC_SUPABASE_ANON_KEY"],
                            env["FUTURE_WALLET_SUPABASE_ACCESS_TOKEN"]))
    else if ServiceRoleAllowed(env) then
      Remote(SupabaseConfig(env["NEXT_PUBLIC_SUPABASE_URL"], env["SUPABASE_SERVICE_ROLE_KEY"],
                            env["SUPABASE_SERVICE_ROLE_KEY"]))
    else Memory
  }

  /** The user's token wins; the service-role key is used, as both key and
      token, only outside production with the flag set; otherwise the store
      is in memory.  In production the service-role key is never used. */
  lemma SelectionCases(env: Env)
    ensures var c := SelectScenarioStore(env);
            && (UserTokenConfigured(env) ==> c.Remote? && c.config.authToken == env["FUTURE_WALLET_SUPABASE_ACCESS_TOKEN"])
            && (c.Remote? <==> UserTokenConfigured(env) || ServiceRoleAllowed(env))
            && (c.Remote? && !UserTokenConfigured(env) ==>
                  NonProduction(env) && c.config.apiKey == env["SUPABASE_SERVICE_ROLE_KEY"] &&
                  c.config.authToken == env["SUPABASE_SERVICE_ROLE_KEY"])
            && (!NonProduction(env) ==> (c.Remote? <==> UserTokenConfigured(env)))
  {
  }

  /** The three store-selection cases of the repository tests. */
  lemma SelectionExamples()
    ensures SelectScenarioStore(map["NODE_ENV" := "test"]) == Memory
    ensures SelectScenarioStore(map["NODE_ENV" := "production",
                                    "NEXT_PUBLIC_SUPABASE_URL" := "https://example.supabase.co",
                                    "SUPABASE_SERVICE_ROLE_KEY" := "service-role-key"]) == Memory
    ensures SelectScenarioStore(map["NODE_ENV" := "development",
                                    "NEXT_PUBLIC_SUPABASE_URL" := "https://example.supabase.co",
                                    "SUPABASE_SERVICE_ROLE_KEY" := "service-role-key",
                                    "FUTURE_WALLET_ALLOW_SERVICE_ROLE_SCENARIO_STORE" := "true"]).Remote?
  {
  }

  /** What `createScenarioStore` hands back. */
  datatype SelectedStore = RemoteStore(config: SupabaseConfig) | MemoryStore(store: InMemoryScenarioStore)

  /** The module holding the in-memory singleton. */
  class ScenarioStores {
    var memoryStoreSingleton: InMemoryScenarioStore?

    constructor()
      ensures memoryStoreSingleton == null
    {
      memoryStoreSingleton := null;
    }

    /** `createScenarioStore`: a remote store when configured, else the
        singleton, created on first use and the same instance ever after. */
    method CreateScenarioStore(env: Env) returns (s: SelectedStore)
      modifies this
      ensures SelectScenarioStore(env).Remote? ==>
                s == RemoteStore(SelectScenarioStore(env).config) && memoryStoreSingleton == old(memoryStoreSingleton)
      ensures SelectScenarioStore(env).Memory? ==>
                s.MemoryStore? && s.store == memoryStoreSingleton &&
                (old(memoryStoreSingleton) != null ==> s.store == old(memoryStoreSingleton)) &&
                (old(memoryStoreSingleton) == null ==> fresh(s.store) && s.store.scenarios == [])
    {
      var choice := SelectScenarioStore(env);
      if choice.Remote? {
        return RemoteStore(choice.config);
      }
      if memoryStoreSingleton == null {
        memoryStoreSingleton := new InMemoryScenarioStore();
      }
      s := MemoryStore(memoryStoreSingleton);
    }
  }
}
