/**
 The system accounts are found by name alone. As long as no client opens an account under the reserved
 name of a currency, every run keeps at most one equity and one suspense account in that currency and
 keeps them usable, whatever fails.
 */
module SystemAccounts {
  import opened Results
  import opened Money
  import opened Accounts
  import opened Transactions
  import opened Ledger
  import opened Steps
  import opened Commands
  import opened Calls
  import opened Moments
  import opened Posting
  import opened SagaPlan

  datatype Role = EquityRole | SuspenseRole

  /** The name reserved for a role in a currency. */
  function Reserved(role: Role, c: Currency): string {
    if role.EquityRole? then "System Equity (" + c + ")" else "System Suspense (" + c + ")"
  }

  function RoleText(role: Role): string {
    if role.EquityRole? then "EQUITY" else "LIABILITY"
  }

  function RoleKind(role: Role): AccountType {
    if role.EquityRole? then Equity else Liability
  }

  /** At most one account has the reserved name, and it is active, of the role's type and in the right currency. */
  ghost predicate RoleSound(m: Table, role: Role, c: Currency) {
    && AtMostOneNamed(m, Reserved(role, c))
    && (forall id: AccountID :: Named(m, id, Reserved(role, c)) ==>
          m[id].status.Active? && m[id].kind == RoleKind(role) && m[id].currency == c)
  }

  ghost predicate SuspenseSound(m: Table, c: Currency) {
    RoleSound(m, SuspenseRole, c)
  }

  /** Names tell roles and currencies apart: each currency has its own equity and its own suspense account. */
  lemma NamesDiffer(role: Role, c: Currency, role': Role, c': Currency)
    ensures Reserved(role, c) == Reserved(role', c') ==> role == role' && c == c'
    ensures Reserved(EquityRole, c) == EquityName(c) && Reserved(SuspenseRole, c) == SuspenseName(c)
  {
    assert Reserved(role, c)[7] == (if role.EquityRole? then 'E' else 'S') && Reserved(role', c')[7] == (if role'.EquityRole? then 'E' else 'S');
    var k := if role.EquityRole? then 15 else 17;
    assert Reserved(role, c)[k..|Reserved(role, c)| - 1] == c;
    assert role == role' ==> Reserved(role', c')[k..|Reserved(role', c')| - 1] == c';
  }

  lemma BalancesDoNotMatter(m: Table, m': Table, role: Role, c: Currency)
    requires RoleSound(m, role, c) && SameButBalances(m, m')
    ensures RoleSound(m', role, c)
  {
    forall id: AccountID | Named(m', id, Reserved(role, c))
      ensures Named(m, id, Reserved(role, c)) && m'[id].status == m[id].status && m'[id].kind == m[id].kind && m'[id].currency == m[id].currency
    {
      assert id in m;
    }
  }

  /** Under any reply, applying an entry changes nothing but a balance. */
  lemma EntryKeepsIdentity(st: State, env: Env, e: Entry)
    requires CoherentTable(st.accounts)
    ensures CoherentTable(ApplyEntry(st, env, e).0.accounts) && SameButBalances(st.accounts, ApplyEntry(st, env, e).0.accounts)
  {
    if e.account in st.accounts && ApplyTo(st.accounts[e.account], e).Ok? {
      PostMeans(st.accounts, e);
    }
  }

  lemma {:induction false} EntriesKeepIdentity(st: State, env: Env, es: seq<Entry>)
    requires CoherentTable(st.accounts)
    ensures SameButBalances(st.accounts, ApplyEntries(st, env, es).0.accounts)
    decreases es
  {
    if es != [] {
      EntryKeepsIdentity(st, env, es[0]);
      EntriesKeepIdentity(ApplyEntry(st, env, es[0]).0, env, es[1..]);
    }
  }

  /** Recording a transaction changes balances only, whether it succeeds, fails or is lost. */
  lemma RecordKeepsIdentity(st: State, env: Env, cmds: seq<EntryCmd>, description: string)
    requires WellFormed(st)
    ensures SameButBalances(st.accounts, RecordTransaction(st, env, cmds, description).0.accounts)
  {
    if ToEntries(cmds).Ok? && Rejection(ToEntries(cmds).value) == None {
      var tx := Transaction(st.nextId, ToEntries(cmds).value, description);
      EntriesKeepIdentity(st.Draw(), env, tx.entries);
      FinishKeepsAccounts(ApplyEntries(st.Draw(), env, tx.entries).0, env, tx);
    }
  }

  lemma FinishKeepsAccounts(st: State, env: Env, tx: Transaction)
    ensures Finish(st, env, tx).0.accounts == st.accounts
  {
  }

  /** Opening under another name, or under this one when it is free, keeps the role sound. */
  lemma OpenKeepsRole(st: State, env: Env, name: string, kind: string, currency: Currency, role: Role, c: Currency)
    requires WellFormed(st) && RoleSound(st.accounts, role, c)
    requires name == Reserved(role, c) ==>
               kind == RoleText(role) && currency == c && forall id: AccountID :: !Named(st.accounts, id, Reserved(role, c))
    ensures RoleSound(OpenAccount(st, env, name, kind, currency).0.accounts, role, c)
  {
    hide Reserved;
    var m' := OpenAccount(st, env, name, kind, currency).0.accounts;
    var acc := Account(st.nextId, name, AccountKind(kind), currency, Money(0, currency), Active);
    assert m' == st.accounts || m' == st.accounts[st.nextId := acc];
    forall id: AccountID | Named(m', id, Reserved(role, c))
      ensures Named(st.accounts, id, Reserved(role, c)) || (id == st.nextId && name == Reserved(role, c))
      ensures m'[id].status.Active? && m'[id].kind == RoleKind(role) && m'[id].currency == c
    {
      if id in st.accounts {
        assert Named(st.accounts, id, Reserved(role, c));
      }
    }
  }

  lemma LookupKeepsRole(st: State, env: Env, name: string, kind: string, currency: Currency, role: Role, c: Currency)
    requires ValidEnv(env) && WellFormed(st) && RoleSound(st.accounts, role, c)
    requires name == Reserved(role, c) ==> kind == RoleText(role) && currency == c
    ensures RoleSound(GetOrCreateSystemAccount(st, env, name, kind, currency).0.accounts, role, c)
  {
    hide OpenAccount, WellFormed, CoherentTable, RoleSound, Reserved;
    Coheres(st);
    ListingFinds(st, env, name);
    TickKeeps(st);
    if env.reply(Listing, st.ops).Done? && FirstNamed(env.listing(st.ops, st.accounts), name).None? {
      OpenKeepsRole(st.Tick(), env, name, kind, currency, role, c);
    }
  }

  /** The command does not open an account under the reserved name. */
  predicate Avoids(cmd: Command, role: Role, c: Currency) {
    cmd.OpenCmd? ==> cmd.name != Reserved(role, c)
  }

  /** No call that such a command may make disturbs the role. */
  lemma CallKeepsRole(st: State, env: Env, cmd: Command, call: LedgerCall, role: Role, c: Currency)
    requires ValidEnv(env) && WellFormed(st) && RoleSound(st.accounts, role, c) && Avoids(cmd, role, c) && MayMake(cmd, call)
    ensures RoleSound(Make(st, env, call).accounts, role, c)
  {
    hide OpenAccount, GetOrCreateSystemAccount, RecordTransaction, WellFormed, ValidEnv, RoleSound, SuspenseName, EquityName, Reserved;
    match call
    case OpenCall(name, kind, currency) =>
      OpenKeepsRole(st, env, name, kind, currency, role, c);
    case LookupCall(name, kind, currency) =>
      NamesDiffer(EquityRole, currency, role, c);
      NamesDiffer(SuspenseRole, currency, role, c);
      LookupKeepsRole(st, env, name, kind, currency, role, c);
    case RecordCall(entries, description) =>
      RecordKeepsIdentity(st, env, entries, description);
      BalancesDoNotMatter(st.accounts, Make(st, env, call).accounts, role, c);
  }

  lemma {:induction false} CallsKeepRole(st: State, env: Env, cmd: Command, calls: seq<LedgerCall>, role: Role, c: Currency)
    requires ValidEnv(env) && WellFormed(st) && st.audit.pending == [] && RoleSound(st.accounts, role, c) && Avoids(cmd, role, c)
    requires forall i :: 0 <= i < |calls| ==> MayMake(cmd, calls[i])
    ensures RoleSound(MakeAll(st, env, calls).accounts, role, c)
    decreases calls
  {
    hide WellFormed, Make, RoleSound, Traces, CallMoments, MayMake, ValidEnv;
    if calls != [] {
      CallKeepsRole(st, env, cmd, calls[0], role, c);
      CallTraces(st, env, calls[0], false);
      assert forall i :: 0 <= i < |calls[1..]| ==> calls[1..][i] == calls[i + 1];
      CallsKeepRole(Make(st, env, calls[0]), env, cmd, calls[1..], role, c);
    }
  }

  lemma ServeKeepsRole(st: State, env: Env, cmd: Command, role: Role, c: Currency)
    requires ValidEnv(env) && WellFormed(st) && st.audit.pending == [] && RoleSound(st.accounts, role, c) && Avoids(cmd, role, c)
    ensures RoleSound(Serve(st, env, cmd).accounts, role, c)
  {
    hide WellFormed, MakeAll, RoleSound, CommandCalls, Serve, ValidEnv, MayMake, Avoids;
    CommandIsItsCalls(st, env, cmd);
    CommandCallsAreProper(st, env, cmd);
    CallsKeepRole(st, env, cmd, CommandCalls(st, env, cmd), role, c);
  }

  lemma {:induction false} RunKeepsRoleFrom(st: State, env: Env, cmds: seq<Command>, role: Role, c: Currency)
    requires ValidEnv(env) && WellFormed(st) && st.audit.pending == [] && RoleSound(st.accounts, role, c)
    requires forall i :: 0 <= i < |cmds| ==> Avoids(cmds[i], role, c)
    ensures RoleSound(Run(st, env, cmds).accounts, role, c)
    decreases cmds
  {
    hide WellFormed, Serve, RoleSound, Traces, CommandMoments, Avoids;
    if cmds != [] {
      ServeKeepsRole(st, env, cmds[0], role, c);
      CommandTraces(st, env, cmds[0]);
      RunKeepsRoleFrom(Serve(st, env, cmds[0]), env, cmds[1..], role, c);
    }
  }

  /**
   Over every run from the empty ledger, under any fault pattern, in which no client opens the name reserved
   for a role in a currency: at most one account has it, active, of the role's type and in that currency.
   */
  lemma RunKeepsRole(env: Env, cmds: seq<Command>, role: Role, c: Currency)
    requires ValidEnv(env)
    requires forall i :: 0 <= i < |cmds| ==> Avoids(cmds[i], role, c)
    ensures RoleSound(Run(Init, env, cmds).accounts, role, c)
  {
    hide Run, ValidEnv, Avoids;
    RunKeepsRoleFrom(Init, env, cmds, role, c);
  }
}
