/** The in-memory share-token store (src/lib/shareTokens/store.ts).  The
    token and the timestamp are parameters, standing for `createToken` and
    the clock. */
module ShareTokens {
  import opened Types

  datatype ShareTokenRecord = ShareTokenRecord(token: string, userId: string, scenarioId: string, createdAt: string)

  /** `records.get(token) ?? null`. */
  function Lookup(records: map<string, ShareTokenRecord>, token: string): (r: Option<ShareTokenRecord>)
    ensures r.Some? <==> token in records
    ensures r.Some? ==> r.value == records[token]
  {
    if token in records then Some(records[token]) else None
  }

  /** Every record is filed under its own token. */
  predicate Filed(records: map<string, ShareTokenRecord>) {
    forall t :: t in records ==> records[t].token == t
  }

  /** The entry `create` writes. */
  function Insert(records: map<string, ShareTokenRecord>, token: string, userId: string, scenarioId: string,
                  now: string): map<string, ShareTokenRecord> {
    records[token := ShareTokenRecord(token, userId, scenarioId, now)]
  }

  /** After an insert the new token resolves to the user and scenario it was
      created for, every other token resolves as before, and records stay
      filed under their tokens. */
  lemma InsertThenLookup(records: map<string, ShareTokenRecord>, token: string, userId: string, scenarioId: string,
                         now: string, other: string)
    ensures var r := Lookup(Insert(records, token, userId, scenarioId, now), token);
            r.Some? && r.value.token == token && r.value.userId == userId && r.value.scenarioId == scenarioId
    ensures other != token ==> Lookup(Insert(records, token, userId, scenarioId, now), other) == Lookup(records, other)
    ensures Filed(records) ==> Filed(Insert(records, token, userId, scenarioId, now))
  {
  }

  /** `InMemoryShareTokenStore`. */
  class InMemoryShareTokenStore {
    var records: map<string, ShareTokenRecord>

    ghost predicate Valid()
      reads this
    {
      Filed(records)
    }

    constructor()
      ensures records == map[] && Valid()
    {
      records := map[];
    }

    /** `create`: files a record under the new token and returns the token;
        a token already present is overwritten. */
    method Create(userId: string, scenarioId: string, token: string, now: string) returns (t: string)
      requires Valid()
      modifies this
      ensures Valid()
      ensures t == token && records == Insert(old(records), token, userId, scenarioId, now)
    {
      records := records[token := ShareTokenRecord(token, userId, scenarioId, now)];
      t := token;
    }

    /** `resolve`. */
    method Resolve(token: string) returns (r: Option<ShareTokenRecord>)
      ensures r == Lookup(records, token)
    {
      if token in records {
        r := Some(records[token]);
      } else {
        r := None;
      }
    }
  }

  /** The module holding the singleton. */
  class ShareTokenStores {
    var singleton: InMemoryShareTokenStore?

    constructor()
      ensures singleton == null
    {
      singleton := null;
    }

    /** `createShareTokenStore`: the singleton, created empty on first use and
        the same instance on every later call; the environment is not read. */
    method CreateShareTokenStore() returns (s: InMemoryShareTokenStore)
      modifies this
      ensures singleton == s
      ensures old(singleton) != null ==> s == old(singleton)
      ensures old(singleton) == null ==> fresh(s) && s.records == map[]
    {
      if singleton == null {
        singleton := new InMemoryShareTokenStore();
      }
      s := singleton;
    }
  }
}
