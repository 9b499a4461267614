/** The data-access shim: the choice between the hosted backend client and the
    mock client, the mock client's chainable builder and its canned data.

    A query is the table it starts from plus the builder calls chained onto
    it. Awaiting a query either yields the `{ data, error, count }` fields the
    screens destructure, or throws. The hosted backend is not modelled: every
    screen receives it as a `Backend`, a function from the query it issues to
    what awaiting that query gives. */
module Supabase {
  import opened JsValues

  /** One call chained onto `supabase.from(table)`. */
  datatype Op =
    | Select(columns: string, options: Value)
    | Eq(column: string, value: Value)
    | Order(column: string, ascending: bool)
    | Limit(n: int)
    | Single
    | Insert(rows: seq<Value>)
    | Update(patch: Value)
    | Upsert(row: Value)
    | Delete

  /** `supabase.from(table).op1(...).op2(...)...` */
  datatype Call = Call(table: string, ops: seq<Op>)

  /** The fields a caller destructures from an awaited query. */
  datatype Reply = Reply(data: Value, error: Value, count: Value)

  /** What `await` on a query gives: a reply, or an exception. */
  datatype Settled = Resolved(reply: Reply) | Thrown(reason: Value)

  type Backend = Call -> Settled

  /** The screens' error test: the await threw, or `if (error) throw error`
      fired. Either way control reaches their `catch` block. */
  predicate Fails(s: Settled) {
    s.Thrown? || Truthy(s.reply.error)
  }

  /** A list a screen fills from a query: `data || []` on success, the
      previous list when the fetch failed. */
  function ListAfter(prev: Value, answer: Settled): (v: Value)
    ensures Fails(answer) ==> v == prev
    ensures !Fails(answer) ==> Truthy(v)
    ensures !Fails(answer) && Truthy(answer.reply.data) ==> v == answer.reply.data
    ensures !Fails(answer) && !Truthy(answer.reply.data) ==> v == Arr([])
  {
    if Fails(answer) then prev else Or(answer.reply.data, Arr([]))
  }

  // ---------------------------------------------------------------------
  // Choosing the client

  const DefaultUrl: string := "https://placeholder-project.supabase.co"
  const DefaultAnonKey: string := "placeholder-key"

  /** `process.env.X || fallback`: an unset or empty variable falls back. */
  function EnvOr(env: Option<string>, fallback: string): string {
    if env.Some? && env.value != "" then env.value else fallback
  }

  predicate StartsWith(s: string, prefix: string) {
    |prefix| <= |s| && s[..|prefix|] == prefix
  }

  /** `s.includes(sub)` */
  predicate Includes(s: string, sub: string)
    decreases |s|
  {
    StartsWith(s, sub) || (s != [] && Includes(s[1..], sub))
  }

  /** `sub` occurs in `s` at position `i`. */
  predicate OccursAt(s: string, sub: string, i: nat) {
    i + |sub| <= |s| && s[i..i + |sub|] == sub
  }

  /** The reference meaning of `s.includes(sub)`. */
  ghost predicate Occurs(s: string, sub: string) {
    exists i: nat :: OccursAt(s, sub, i)
  }

  lemma {:induction false} IncludesAt(s: string, sub: string, i: nat)
    requires OccursAt(s, sub, i)
    ensures Includes(s, sub)
    decreases i
  {
    if i > 0 {
      assert s[1..][i - 1..i - 1 + |sub|] == sub;
      IncludesAt(s[1..], sub, i - 1);
    } else {
      assert s[..|sub|] == sub;
    }
  }

  lemma {:induction false} IncludesWitness(s: string, sub: string) returns (i: nat)
    requires Includes(s, sub)
    ensures OccursAt(s, sub, i)
    decreases |s|
  {
    if StartsWith(s, sub) {
      i := 0;
    } else {
      var j := IncludesWitness(s[1..], sub);
      assert s[1..][j..j + |sub|] == s[j + 1..j + 1 + |sub|];
      i := j + 1;
    }
  }

  /** `s.includes(sub)` holds exactly when `sub` occurs at some position of `s`. */
  lemma IncludesIffOccurs(s: string, sub: string)
    ensures Includes(s, sub) <==> Occurs(s, sub)
  {
    if Includes(s, sub) {
      var i := IncludesWitness(s, sub);
    }
    if Occurs(s, sub) {
      var i: nat :| OccursAt(s, sub, i);
      IncludesAt(s, sub, i);
    }
  }

  /** `isMockMode`, decided from the URL alone: the mock is used exactly
      when one of the two placeholder markers occurs in it. */
  function IsMockMode(url: string): (mock: bool)
    ensures mock <==> Occurs(url, "placeholder") || Occurs(url, "TU_SUPABASE")
  {
    IncludesIffOccurs(url, "placeholder");
    IncludesIffOccurs(url, "TU_SUPABASE");
    Includes(url, "placeholder") || Includes(url, "TU_SUPABASE")
  }

  /** The client the module exports: the mock, or a hosted client built from
      the URL and anon key (with session storage, token refresh and session
      detection switched off). */
  datatype Client = MockClient | HostedClient(url: string, anonKey: string)

  function CreateClient(envUrl: Option<string>, envKey: Option<string>): (c: Client)
    ensures c.MockClient? <==>
      Occurs(EnvOr(envUrl, DefaultUrl), "placeholder") || Occurs(EnvOr(envUrl, DefaultUrl), "TU_SUPABASE")
    ensures c.HostedClient? ==> c.url == EnvOr(envUrl, DefaultUrl) && c.anonKey == EnvOr(envKey, DefaultAnonKey)
  {
    var url := EnvOr(envUrl, DefaultUrl);
    if IsMockMode(url) then MockClient else HostedClient(url, EnvOr(envKey, DefaultAnonKey))
  }

  /** The anon key never takes part in the choice. */
  lemma MockModeIgnoresKey(envUrl: Option<string>, key1: Option<string>, key2: Option<string>)
    ensures CreateClient(envUrl, key1).MockClient? == CreateClient(envUrl, key2).MockClient?
  {
  }

  /** Without a configured URL (unset or empty) the app runs on the mock. */
  lemma UnconfiguredIsMock(envUrl: Option<string>, envKey: Option<string>)
    requires envUrl == None || envUrl == Some("")
    ensures CreateClient(envUrl, envKey) == MockClient
  {
    var sub := "placeholder";
    assert forall j :: 0 <= j < |sub| ==> DefaultUrl[8 + j] == sub[j];
    assert DefaultUrl[8..8 + |sub|] == sub;
    IncludesAt(DefaultUrl, sub, 8);
  }

  // ---------------------------------------------------------------------
  // Canned data

  const MasterCode: string := "lux_master_2026"

  const MockConfig: Value :=
    Obj(map["platform" := Str("youtube"), "channelId" := Str("UC_x5XG1OV2P6uZZ5FSM9Ttw")])

  function LeadRow(id: int, name: string, email: string, eventType: string, message: string, createdAt: int): Value {
    Obj(map["id" := Num(id), "name" := Str(name), "email" := Str(email),
            "event_type" := Str(eventType), "message" := Str(message), "created_at" := Time(createdAt)])
  }

  /** MOCK_LEADS, stamped from the clock reading taken when the module loads. */
  function MockLeads(loadedAt: int): (rows: seq<Value>)
    ensures |rows| == 3
    ensures forall k :: 0 <= k < 3 ==> rows[k].Obj? && "id" in rows[k].fields && rows[k].fields["id"] == Num(k + 1)
    ensures forall k :: 0 <= k < 3 ==> "created_at" in rows[k].fields && rows[k].fields["created_at"] == Time(loadedAt - k * 86400000)
  {
    [ LeadRow(1, "Sophie Martin", "sophie.m@gmail.com", "Wedding",
              "Looking for full photography package for June 2025.", loadedAt),
      LeadRow(2, "Jean Dupont", "j.dupont@corporate.lu", "Corporate",
              "Annual gala dinner coverage needed.", loadedAt - 86400000),
      LeadRow(3, "Maria Garcia", "maria.g@hotmail.com", "Baptism",
              "Small family gathering photos.", loadedAt - 172800000) ]
  }

  lemma MockLeadIdsDistinct(loadedAt: int, j: nat, k: nat)
    requires j < 3 && k < 3 && j != k
    ensures MockLeads(loadedAt)[j].fields["id"] != MockLeads(loadedAt)[k].fields["id"]
  {
  }

  // ---------------------------------------------------------------------
  // The mock client

  /** Where a mock chain stands: still the builder, a promise returned by a
      terminal call, or an exception already thrown. */
  datatype Stage = Chain | Promised(reply: Reply) | Broken(reason: Value)

  /** The exception thrown when a method the object does not have is called. */
  const NotAFunction: Value := Str("TypeError: not a function")

  function OrderRows(loadedAt: int, table: string): seq<Value> {
    if table == "leads" then MockLeads(loadedAt)
    else if table == "app_settings" then [Obj(map["key" := Str("stream_config"), "value" := MockConfig])]
    else []
  }

  function SingleRow(table: string): Value {
    if table == "app_settings" then Obj(map["value" := Str(MasterCode)]) else Null
  }

  /** One chained call on the mock. The builder has select, eq, order, single
      and upsert only; a promise has none of the builder's methods. */
  function Step(loadedAt: int, table: string, st: Stage, op: Op): (r: Stage)
    ensures st.Broken? ==> r == st
    ensures st.Promised? ==> r == Broken(NotAFunction)
    ensures st.Chain? ==> (r == Chain <==> IsFilter(op))
    ensures st.Chain? ==> (r == Broken(NotAFunction) <==> Missing(op))
    ensures st.Chain? && r.Promised? ==> r.reply.error == Null
  {
    match st
    case Broken(_) => st
    case Promised(_) => Broken(NotAFunction)
    case Chain =>
      match op
      case Select(_, _) => Chain
      case Eq(_, _) => Chain
      case Order(_, _) => Promised(Reply(Arr(OrderRows(loadedAt, table)), Null, Undefined))
      case Single => Promised(Reply(SingleRow(table), Null, Undefined))
      case Upsert(_) => Promised(Reply(Undefined, Null, Undefined))
      case _ => Broken(NotAFunction)
  }

  function Run(loadedAt: int, table: string, st: Stage, ops: seq<Op>): Stage
    decreases |ops|
  {
    if ops == [] then st else Run(loadedAt, table, Step(loadedAt, table, st, ops[0]), ops[1..])
  }

  lemma RunCons(loadedAt: int, table: string, st: Stage, op: Op, rest: seq<Op>)
    ensures Run(loadedAt, table, st, [op] + rest) == Run(loadedAt, table, Step(loadedAt, table, st, op), rest)
  {
    assert ([op] + rest)[0] == op;
    assert ([op] + rest)[1..] == rest;
  }

  /** Awaiting a mock query. Awaiting the builder itself (no terminal call)
      yields the builder, whose data, error and count are all undefined. */
  function MockAwait(loadedAt: int, call: Call): (s: Settled)
    ensures s.Resolved? ==> !Truthy(s.reply.error)
    ensures s.Thrown? ==> s.reason == NotAFunction
  {
    RunNeverErrs(loadedAt, call.table, Chain, call.ops);
    match Run(loadedAt, call.table, Chain, call.ops)
    case Chain => Resolved(Reply(Undefined, Undefined, Undefined))
    case Promised(r) => Resolved(r)
    case Broken(e) => Thrown(e)
  }

  predicate IsFilter(op: Op) {
    op.Select? || op.Eq?
  }

  /** select and eq return the builder unchanged: any run of them in front of a
      query leaves the mock's answer as it was. */
  lemma {:induction false} MockFiltersIgnored(loadedAt: int, table: string, filters: seq<Op>, rest: seq<Op>)
    requires forall k :: 0 <= k < |filters| ==> IsFilter(filters[k])
    ensures MockAwait(loadedAt, Call(table, filters + rest)) == MockAwait(loadedAt, Call(table, rest))
  {
    RunFilters(loadedAt, table, filters, rest);
  }

  lemma {:induction false} RunFilters(loadedAt: int, table: string, filters: seq<Op>, rest: seq<Op>)
    requires forall k :: 0 <= k < |filters| ==> IsFilter(filters[k])
    ensures Run(loadedAt, table, Chain, filters + rest) == Run(loadedAt, table, Chain, rest)
    decreases |filters|
  {
    if filters != [] {
      assert IsFilter(filters[0]);
      assert filters + rest == [filters[0]] + (filters[1..] + rest);
      RunCons(loadedAt, table, Chain, filters[0], filters[1..] + rest);
      assert Step(loadedAt, table, Chain, filters[0]) == Chain;
      assert forall k :: 0 <= k < |filters[1..]| ==> IsFilter(filters[1..][k]) by {
        forall k | 0 <= k < |filters[1..]| ensures IsFilter(filters[1..][k]) {
          assert filters[1..][k] == filters[k + 1];
        }
      }
      RunFilters(loadedAt, table, filters[1..], rest);
    } else {
      assert filters + rest == rest;
    }
  }

  /** `order` resolves to the table's canned rows (the three leads, the one
      stream_config setting, or no rows) with a null error, whatever filters
      came before it. */
  lemma MockOrder(loadedAt: int, table: string, filters: seq<Op>, column: string, ascending: bool)
    requires forall k :: 0 <= k < |filters| ==> IsFilter(filters[k])
    ensures var s := MockAwait(loadedAt, Call(table, filters + [Order(column, ascending)]));
      && s.Resolved? && s.reply.error == Null
      && s.reply.data.Arr?
      && (table == "leads" ==> s.reply.data.items == MockLeads(loadedAt))
      && (table == "app_settings" ==>
            s.reply.data.items == [Obj(map["key" := Str("stream_config"), "value" := MockConfig])])
      && (table != "leads" && table != "app_settings" ==> s.reply.data.items == [])
  {
    MockFiltersIgnored(loadedAt, table, filters, [Order(column, ascending)]);
    RunCons(loadedAt, table, Chain, Order(column, ascending), []);
    assert [Order(column, ascending)] + [] == [Order(column, ascending)];
  }

  /** `single` on app_settings yields `{ value: 'lux_master_2026' }` whichever
      key was filtered on; on any other table data is null. */
  lemma MockSingle(loadedAt: int, table: string, filters: seq<Op>)
    requires forall k :: 0 <= k < |filters| ==> IsFilter(filters[k])
    ensures var s := MockAwait(loadedAt, Call(table, filters + [Single]));
      && s.Resolved? && s.reply.error == Null
      && s.reply.data == (if table == "app_settings" then Obj(map["value" := Str(MasterCode)]) else Null)
  {
    MockFiltersIgnored(loadedAt, table, filters, [Single]);
    RunCons(loadedAt, table, Chain, Single, []);
    assert [Single] + [] == [Single];
  }

  /** `upsert` resolves with a null error, whatever the payload. */
  lemma MockUpsert(loadedAt: int, table: string, row: Value)
    ensures MockAwait(loadedAt, Call(table, [Upsert(row)])) == Resolved(Reply(Undefined, Null, Undefined))
  {
    RunCons(loadedAt, table, Chain, Upsert(row), []);
    assert [Upsert(row)] + [] == [Upsert(row)];
  }

  predicate Missing(op: Op) {
    op.Limit? || op.Insert? || op.Update? || op.Delete?
  }

  lemma {:induction false} RunBroken(loadedAt: int, table: string, e: Value, ops: seq<Op>)
    ensures Run(loadedAt, table, Broken(e), ops) == Broken(e)
    decreases |ops|
  {
    if ops != [] {
      RunBroken(loadedAt, table, e, ops[1..]);
    }
  }

  /** The mock builder has no limit, insert, update or delete: chaining one of
      them throws, whatever follows. */
  lemma MockMissingMethod(loadedAt: int, table: string, filters: seq<Op>, op: Op, rest: seq<Op>)
    requires forall k :: 0 <= k < |filters| ==> IsFilter(filters[k])
    requires Missing(op)
    ensures MockAwait(loadedAt, Call(table, filters + [op] + rest)) == Thrown(NotAFunction)
  {
    assert filters + [op] + rest == filters + ([op] + rest);
    RunFilters(loadedAt, table, filters, [op] + rest);
    RunCons(loadedAt, table, Chain, op, rest);
    RunBroken(loadedAt, table, NotAFunction, rest);
  }

  /** A call chained after a terminal call throws, since a promise has none of
      the builder's methods. */
  lemma MockAfterTerminal(loadedAt: int, table: string, terminal: Op, op: Op, rest: seq<Op>)
    requires terminal.Order? || terminal.Single? || terminal.Upsert?
    ensures MockAwait(loadedAt, Call(table, [terminal, op] + rest)) == Thrown(NotAFunction)
  {
    var st := Step(loadedAt, table, Chain, terminal);
    assert st.Promised?;
    assert [terminal, op] + rest == [terminal] + ([op] + rest);
    RunCons(loadedAt, table, Chain, terminal, [op] + rest);
    RunCons(loadedAt, table, st, op, rest);
    RunBroken(loadedAt, table, NotAFunction, rest);
  }

  lemma {:induction false} RunNeverErrs(loadedAt: int, table: string, st: Stage, ops: seq<Op>)
    requires st.Promised? ==> st.reply.error == Null
    requires st.Broken? ==> st.reason == NotAFunction
    ensures var r := Run(loadedAt, table, st, ops);
      && (r.Promised? ==> r.reply.error == Null)
      && (r.Broken? ==> r.reason == NotAFunction)
    decreases |ops|
  {
    if ops != [] {
      RunNeverErrs(loadedAt, table, Step(loadedAt, table, st, ops[0]), ops[1..]);
    }
  }

  /** A sequence of mock queries, answered one after the other. */
  function MockSession(loadedAt: int, calls: seq<Call>): (results: seq<Settled>)
    ensures |results| == |calls|
    ensures forall k :: 0 <= k < |calls| ==> results[k] == MockAwait(loadedAt, calls[k])
  {
    if calls == [] then []
    else MockSession(loadedAt, calls[..|calls| - 1]) + [MockAwait(loadedAt, calls[|calls| - 1])]
  }

  /** Writes are not durable: whatever was upserted (or otherwise sent) before,
      a query gets the same answer as in a fresh session. */
  lemma MockWritesNotDurable(loadedAt: int, earlier: seq<Call>, query: Call)
    ensures MockSession(loadedAt, earlier + [query])[|earlier|] == MockSession(loadedAt, [query])[0]
  {
  }
}
