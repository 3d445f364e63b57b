/** RADIUS provisioning: delete-then-insert on the stock FreeRADIUS tables, once in
    the Network Agent and once in the backend, both refining a last-write map. */
module Radius {
  import opened Basics

  datatype Attribute = CleartextPassword | MikrotikRateLimit | SessionTimeout | SimultaneousUse

  /** An attribute's text, as an injective function of what it is formatted from. */
  datatype Value = Password(text: string) | Rate(download: nat, upload: nat) | Seconds(n: nat) | Sessions(limit: int)

  datatype Row = Row(name: string, attribute: Attribute, value: Value)

  datatype Member = Member(name: string, group: string)

  /** radcheck, radusergroup, radgroupreply and radgroupcheck. */
  datatype Tables = Tables(check: seq<Row>, members: seq<Member>, reply: seq<Row>, groupCheck: seq<Row>)

  const EMPTY_TABLES := Tables([], [], [], [])

  /** What a package grants; None and 0 both mean no limit. */
  datatype Plan = Plan(download: Option<nat>, upload: Option<nat>, timeout: Option<nat>, sessions: int)

  function GroupName(package: string): string {
    "pkg_" + package
  }

  predicate Limited(x: Option<nat>) {
    x.Some? && x.value != 0
  }

  function ReplyAttributes(plan: Plan): seq<(Attribute, Value)> {
    (if Limited(plan.download) && Limited(plan.upload)
     then [(MikrotikRateLimit, Rate(plan.download.value, plan.upload.value))] else [])
    + (if Limited(plan.timeout) then [(SessionTimeout, Seconds(plan.timeout.value))] else [])
  }

  function Rows(name: string, attributes: seq<(Attribute, Value)>): seq<Row> {
    if |attributes| == 0 then []
    else Rows(name, attributes[..|attributes| - 1])
         + [Row(name, attributes[|attributes| - 1].0, attributes[|attributes| - 1].1)]
  }

  function Named(name: string): Row -> bool {
    (r: Row) => r.name == name
  }

  function NotNamed(name: string): Row -> bool {
    (r: Row) => r.name != name
  }

  function NotPassword(name: string): Row -> bool {
    (r: Row) => !(r.name == name && r.attribute.CleartextPassword?)
  }

  function MemberNamed(name: string): Member -> bool {
    (m: Member) => m.name == name
  }

  function MemberNotNamed(name: string): Member -> bool {
    (m: Member) => m.name != name
  }

  // ---------------------------------------------- what a call does

  datatype Op =
    | Sync(package: string, plan: Plan)
    | Provision(user: string, package: string, password: string)
    | Revoke(user: string)

  function Step(t: Tables, op: Op): Tables {
    match op
    case Sync(package, plan) =>
      var g := GroupName(package);
      t.(reply := Filter(NotNamed(g), t.reply) + Rows(g, ReplyAttributes(plan)),
         groupCheck := Filter(NotNamed(g), t.groupCheck) + [Row(g, SimultaneousUse, Sessions(plan.sessions))])
    case Provision(user, package, password) =>
      t.(check := Filter(NotPassword(user), t.check) + [Row(user, CleartextPassword, Password(password))],
         members := Filter(MemberNotNamed(user), t.members) + [Member(user, GroupName(package))])
    case Revoke(user) =>
      t.(check := Filter(NotNamed(user), t.check), members := Filter(MemberNotNamed(user), t.members))
  }

  function Run(ops: seq<Op>): Tables {
    if |ops| == 0 then EMPTY_TABLES else Step(Run(ops[..|ops| - 1]), ops[|ops| - 1])
  }

  // ------------------------------------------------ the two implementations

  class RadiusDatabase {
    var check: seq<Row>
    var members: seq<Member>
    var reply: seq<Row>
    var groupCheck: seq<Row>

    function State(): Tables
      reads this
    {
      Tables(check, members, reply, groupCheck)
    }

    constructor ()
      ensures State() == EMPTY_TABLES
    {
      check, members, reply, groupCheck := [], [], [], [];
    }

    /** One INSERT per attribute. */
    method InsertReplies(name: string, attributes: seq<(Attribute, Value)>)
      modifies this`reply
      ensures reply == old(reply) + Rows(name, attributes)
    {
      for k := 0 to |attributes|
        invariant reply == old(reply) + Rows(name, attributes[..k])
      {
        RowsExtend(name, attributes, k);
        reply := reply + [Row(name, attributes[k].0, attributes[k].1)];
      }
      assert attributes[..|attributes|] == attributes;
    }

    /** Ends a transaction: a failed one leaves no trace. */
    method Finish(before: Tables, works: bool) returns (r: Result<()>)
      modifies this
      ensures r.Ok? <==> works
      ensures State() == if works then old(State()) else before
    {
      if works {
        return Ok(());
      }
      check, members, reply, groupCheck := before.check, before.members, before.reply, before.groupCheck;
      return Raised(ProviderFault);
    }
  }

  lemma {:induction false} RowsExtend(name: string, attributes: seq<(Attribute, Value)>, k: nat)
    requires k < |attributes|
    ensures Rows(name, attributes[..k + 1]) == Rows(name, attributes[..k])
            + [Row(name, attributes[k].0, attributes[k].1)]
  {
    assert attributes[..k + 1][..k] == attributes[..k];
  }

  method ReplyList(plan: Plan) returns (attributes: seq<(Attribute, Value)>)
    ensures attributes == ReplyAttributes(plan)
  {
    attributes := [];
    if Limited(plan.download) && Limited(plan.upload) {
      attributes := attributes + [(MikrotikRateLimit, Rate(plan.download.value, plan.upload.value))];
    }
    if Limited(plan.timeout) {
      attributes := attributes + [(SessionTimeout, Seconds(plan.timeout.value))];
    }
  }

  class NetworkAgent {
    const db: RadiusDatabase

    constructor (db: RadiusDatabase)
      ensures this.db == db
    {
      this.db := db;
    }

    method SyncPackageGroup(package: string, plan: Plan, works: bool) returns (r: Result<()>)
      modifies db
      ensures r.Ok? <==> works
      ensures db.State() == if r.Ok? then Step(old(db.State()), Sync(package, plan)) else old(db.State())
    {
      var name := GroupName(package);
      var attributes := ReplyList(plan);
      var before := db.State();
      db.reply := Filter(NotNamed(name), db.reply);
      db.groupCheck := Filter(NotNamed(name), db.groupCheck);
      db.InsertReplies(name, attributes);
      db.groupCheck := db.groupCheck + [Row(name, SimultaneousUse, Sessions(plan.sessions))];
      r := db.Finish(before, works);
    }

    method ProvisionUser(user: string, package: string, password: string, works: bool) returns (r: Result<()>)
      modifies db
      ensures r.Ok? <==> works
      ensures db.State() == if r.Ok? then Step(old(db.State()), Provision(user, package, password)) else old(db.State())
    {
      var before := db.State();
      db.check := Filter(NotPassword(user), db.check);
      db.check := db.check + [Row(user, CleartextPassword, Password(password))];
      db.members := Filter(MemberNotNamed(user), db.members);
      db.members := db.members + [Member(user, GroupName(package))];
      r := db.Finish(before, works);
    }

    method RevokeUser(user: string, works: bool) returns (r: Result<()>)
      modifies db
      ensures r.Ok? <==> works
      ensures db.State() == if r.Ok? then Step(old(db.State()), Revoke(user)) else old(db.State())
    {
      var before := db.State();
      db.check := Filter(NotNamed(user), db.check);
      db.members := Filter(MemberNotNamed(user), db.members);
      r := db.Finish(before, works);
    }
  }

  class RadiusSync {
    const db: RadiusDatabase

    constructor (db: RadiusDatabase)
      ensures this.db == db
    {
      this.db := db;
    }

    method SyncPackageRadiusGroup(package: string, plan: Plan, works: bool) returns (r: Result<()>)
      modifies db
      ensures r.Ok? <==> works
      ensures db.State() == if r.Ok? then Step(old(db.State()), Sync(package, plan)) else old(db.State())
    {
      var before := db.State();
      var name := GroupName(package);
      db.reply := Filter(NotNamed(name), db.reply);
      db.groupCheck := Filter(NotNamed(name), db.groupCheck);
      var attributes := ReplyList(plan);
      db.InsertReplies(name, attributes);
      db.groupCheck := db.groupCheck + [Row(name, SimultaneousUse, Sessions(plan.sessions))];
      r := db.Finish(before, works);
    }

    method ProvisionCustomerRadiusAccess(phone: string, package: string, password: string, works: bool)
      returns (r: Result<()>)
      modifies db
      ensures r.Ok? <==> works
      ensures db.State() == if r.Ok? then Step(old(db.State()), Provision(phone, package, password))
              else old(db.State())
    {
      var before := db.State();
      db.check := Filter(NotPassword(phone), db.check) + [Row(phone, CleartextPassword, Password(password))];
      db.members := Filter(MemberNotNamed(phone), db.members) + [Member(phone, GroupName(package))];
      r := db.Finish(before, works);
    }

    method RevokeCustomerRadiusAccess(phone: string, works: bool) returns (r: Result<()>)
      modifies db
      ensures r.Ok? <==> works
      ensures db.State() == if r.Ok? then Step(old(db.State()), Revoke(phone)) else old(db.State())
    {
      var before := db.State();
      db.check := Filter(NotNamed(phone), db.check);
      db.members := Filter(MemberNotNamed(phone), db.members);
      r := db.Finish(before, works);
    }
  }

  // ------------------------------------------------------ the simple map

  datatype Login = Login(password: string, group: string)

  /** Who can log in, in which group; and what each group was last synced to. */
  datatype Directory = Directory(logins: map<string, Login>, groups: map<string, Plan>)

  function Apply(d: Directory, op: Op): Directory {
    match op
    case Sync(package, plan) => d.(groups := d.groups[GroupName(package) := plan])
    case Provision(user, package, password) => d.(logins := d.logins[user := Login(password, GroupName(package))])
    case Revoke(user) => d.(logins := d.logins - {user})
  }

  function Directed(ops: seq<Op>): Directory {
    if |ops| == 0 then Directory(map[], map[]) else Apply(Directed(ops[..|ops| - 1]), ops[|ops| - 1])
  }

  predicate UserMatches(t: Tables, d: Directory, user: string) {
    if user in d.logins then
      && Filter(Named(user), t.check) == [Row(user, CleartextPassword, Password(d.logins[user].password))]
      && Filter(MemberNamed(user), t.members) == [Member(user, d.logins[user].group)]
    else
      Filter(Named(user), t.check) == [] && Filter(MemberNamed(user), t.members) == []
  }

  predicate GroupMatches(t: Tables, d: Directory, group: string) {
    if group in d.groups then
      && Filter(Named(group), t.reply) == Rows(group, ReplyAttributes(d.groups[group]))
      && Filter(Named(group), t.groupCheck) == [Row(group, SimultaneousUse, Sessions(d.groups[group].sessions))]
    else
      Filter(Named(group), t.reply) == [] && Filter(Named(group), t.groupCheck) == []
  }

  ghost predicate Matches(t: Tables, d: Directory) {
    && (forall user :: UserMatches(t, d, user))
    && (forall group :: GroupMatches(t, d, group))
    && (forall r :: r in t.check ==> r.attribute.CleartextPassword?)
  }

  // ------------------------------------------------------------- filters

  /** Deleting by `q` and then looking by `p`: all is seen, or nothing. */
  lemma {:induction false} FilterFilter<T>(p: T -> bool, q: T -> bool, xs: seq<T>)
    ensures (forall x :: p(x) ==> q(x)) ==> Filter(p, Filter(q, xs)) == Filter(p, xs)
    ensures (forall k :: 0 <= k < |xs| && p(xs[k]) ==> !q(xs[k])) ==> Filter(p, Filter(q, xs)) == []
  {
    if |xs| > 0 {
      var n := |xs| - 1;
      FilterFilter(p, q, xs[..n]);
      var last := if q(xs[n]) then [xs[n]] else [];
      FilterConcat(p, Filter(q, xs[..n]), last);
      if q(xs[n]) {
        assert [xs[n]][..0] == [];
      }
    }
  }

  lemma {:induction false} FilterMember<T>(p: T -> bool, xs: seq<T>)
    ensures forall x :: x in Filter(p, xs) ==> x in xs && p(x)
  {
    if |xs| > 0 {
      FilterMember(p, xs[..|xs| - 1]);
    }
  }

  lemma {:induction false} RowsNamed(name: string, attributes: seq<(Attribute, Value)>)
    ensures forall r :: r in Rows(name, attributes) ==> r.name == name
  {
    if |attributes| > 0 {
      RowsNamed(name, attributes[..|attributes| - 1]);
    }
  }

  /** Replacing everything named `name` by `rows`, seen through any name. */
  lemma {:induction false} Replaced(name: string, seen: string, old_: seq<Row>, rows: seq<Row>)
    requires forall r :: r in rows ==> r.name == name
    ensures Filter(Named(seen), Filter(NotNamed(name), old_) + rows)
            == if seen == name then rows else Filter(Named(seen), old_)
  {
    FilterConcat(Named(seen), Filter(NotNamed(name), old_), rows);
    FilterFilter(Named(seen), NotNamed(name), old_);
    if seen == name {
      FilterAll(Named(seen), rows);
    } else {
      FilterNone(Named(seen), rows);
    }
  }

  lemma {:induction false} PasswordReplaced(name: string, seen: string, old_: seq<Row>, row: Row)
    requires row.name == name
    requires forall k :: 0 <= k < |old_| ==> old_[k].attribute.CleartextPassword?
    ensures Filter(Named(seen), Filter(NotPassword(name), old_) + [row])
            == if seen == name then [row] else Filter(Named(seen), old_)
  {
    FilterConcat(Named(seen), Filter(NotPassword(name), old_), [row]);
    FilterFilter(Named(seen), NotPassword(name), old_);
    assert [row][..0] == [];
  }

  lemma {:induction false} MemberReplaced(name: string, seen: string, old_: seq<Member>, added: seq<Member>)
    requires forall m :: m in added ==> m.name == name
    ensures Filter(MemberNamed(seen), Filter(MemberNotNamed(name), old_) + added)
            == if seen == name then added else Filter(MemberNamed(seen), old_)
  {
    FilterConcat(MemberNamed(seen), Filter(MemberNotNamed(name), old_), added);
    FilterFilter(MemberNamed(seen), MemberNotNamed(name), old_);
    if seen == name {
      FilterAll(MemberNamed(seen), added);
    } else {
      FilterNone(MemberNamed(seen), added);
    }
  }

  // ---------------------------------------------------------- refinement

  lemma SyncMatches(t: Tables, d: Directory, package: string, plan: Plan)
    requires Matches(t, d)
    ensures Matches(Step(t, Sync(package, plan)), Apply(d, Sync(package, plan)))
  {
    var t', d', g := Step(t, Sync(package, plan)), Apply(d, Sync(package, plan)), GroupName(package);
    forall group
      ensures GroupMatches(t', d', group)
    {
      assert GroupMatches(t, d, group);
      RowsNamed(g, ReplyAttributes(plan));
      Replaced(g, group, t.reply, Rows(g, ReplyAttributes(plan)));
      Replaced(g, group, t.groupCheck, [Row(g, SimultaneousUse, Sessions(plan.sessions))]);
    }
    forall user
      ensures UserMatches(t', d', user)
    {
      assert UserMatches(t, d, user);
    }
  }

  lemma ProvisionMatches(t: Tables, d: Directory, user: string, package: string, password: string)
    requires Matches(t, d)
    ensures Matches(Step(t, Provision(user, package, password)), Apply(d, Provision(user, package, password)))
  {
    var op := Provision(user, package, password);
    var t', d' := Step(t, op), Apply(d, op);
    forall u
      ensures UserMatches(t', d', u)
    {
      assert UserMatches(t, d, u);
      ProvisionedUser(t, d, user, package, password, u);
    }
    forall group
      ensures GroupMatches(t', d', group)
    {
      assert GroupMatches(t, d, group);
    }
    FilterMember(NotPassword(user), t.check);
  }

  lemma ProvisionedUser(t: Tables, d: Directory, user: string, package: string, password: string, seen: string)
    requires UserMatches(t, d, seen)
    requires forall k :: 0 <= k < |t.check| ==> t.check[k].attribute.CleartextPassword?
    ensures var op := Provision(user, package, password); UserMatches(Step(t, op), Apply(d, op), seen)
  {
    PasswordReplaced(user, seen, t.check, Row(user, CleartextPassword, Password(password)));
    MemberReplaced(user, seen, t.members, [Member(user, GroupName(package))]);
  }

  lemma RevokeMatches(t: Tables, d: Directory, user: string)
    requires Matches(t, d)
    ensures Matches(Step(t, Revoke(user)), Apply(d, Revoke(user)))
  {
    var t', d' := Step(t, Revoke(user)), Apply(d, Revoke(user));
    forall u
      ensures UserMatches(t', d', u)
    {
      assert UserMatches(t, d, u);
      Replaced(user, u, t.check, []);
      MemberReplaced(user, u, t.members, []);
      assert Filter(NotNamed(user), t.check) + [] == Filter(NotNamed(user), t.check);
      assert Filter(MemberNotNamed(user), t.members) + [] == Filter(MemberNotNamed(user), t.members);
    }
    forall group
      ensures GroupMatches(t', d', group)
    {
      assert GroupMatches(t, d, group);
    }
    FilterMember(NotNamed(user), t.check);
  }

  /** After any series of calls on empty tables each user has exactly the one password
      row and one group row of the last provisioning, or none after a revocation, and
      each group exactly the attributes of its last sync. */
  lemma {:induction false} TablesAreLastWrites(ops: seq<Op>)
    ensures Matches(Run(ops), Directed(ops))
  {
    if |ops| > 0 {
      var n := |ops| - 1;
      TablesAreLastWrites(ops[..n]);
      match ops[n]
      case Sync(package, plan) => SyncMatches(Run(ops[..n]), Directed(ops[..n]), package, plan);
      case Provision(user, package, password) =>
        ProvisionMatches(Run(ops[..n]), Directed(ops[..n]), user, package, password);
      case Revoke(user) => RevokeMatches(Run(ops[..n]), Directed(ops[..n]), user);
    }
  }

  lemma {:induction false} FilterTwice<T>(p: T -> bool, xs: seq<T>, added: seq<T>)
    requires forall x :: x in added ==> !p(x)
    ensures Filter(p, Filter(p, xs) + added) == Filter(p, xs)
  {
    FilterConcat(p, Filter(p, xs), added);
    FilterNone(p, added);
    FilterMember(p, xs);
    FilterAll(p, Filter(p, xs));
  }

  /** Repeating any call at once changes nothing, row order included. */
  lemma RepeatChangesNothing(t: Tables, op: Op)
    ensures Step(Step(t, op), op) == Step(t, op)
  {
    match op
    case Sync(package, plan) =>
      var g := GroupName(package);
      RowsNamed(g, ReplyAttributes(plan));
      FilterTwice(NotNamed(g), t.reply, Rows(g, ReplyAttributes(plan)));
      FilterTwice(NotNamed(g), t.groupCheck, [Row(g, SimultaneousUse, Sessions(plan.sessions))]);
    case Provision(user, package, password) =>
      FilterTwice(NotPassword(user), t.check, [Row(user, CleartextPassword, Password(password))]);
      FilterTwice(MemberNotNamed(user), t.members, [Member(user, GroupName(package))]);
    case Revoke(user) =>
      FilterTwice(NotNamed(user), t.check, []);
      FilterTwice(MemberNotNamed(user), t.members, []);
      assert Filter(NotNamed(user), t.check) + [] == Filter(NotNamed(user), t.check);
      assert Filter(MemberNotNamed(user), t.members) + [] == Filter(MemberNotNamed(user), t.members);
  }

  // ------------------------------------------------- what the tables grant

  /** What a package grants: a rate limit when both speeds are limited, and a session
      timeout when it is limited, each once, and nothing else. */
  lemma AttributesGranted(plan: Plan, attribute: Attribute, value: Value)
    ensures (attribute, value) in ReplyAttributes(plan) <==>
              match attribute
              case MikrotikRateLimit =>
                exists down: nat, up: nat ::
                  && down > 0 && up > 0 && plan.download == Some(down) && plan.upload == Some(up)
                  && value == Rate(down, up)
              case SessionTimeout => exists n: nat :: n > 0 && plan.timeout == Some(n) && value == Seconds(n)
              case _ => false
    ensures |ReplyAttributes(plan)| <= 2
    ensures |ReplyAttributes(plan)| == 2 ==> ReplyAttributes(plan)[0].0 != ReplyAttributes(plan)[1].0
  {
    assert plan.download.Some? ==> plan.download == Some(plan.download.value);
    assert plan.upload.Some? ==> plan.upload == Some(plan.upload.value);
    assert plan.timeout.Some? ==> plan.timeout == Some(plan.timeout.value);
  }

  lemma {:induction false} FilterKeeps<T>(p: T -> bool, xs: seq<T>, x: T)
    ensures x in Filter(p, xs) <==> x in xs && p(x)
  {
    if |xs| > 0 {
      FilterKeeps(p, xs[..|xs| - 1], x);
      assert xs == xs[..|xs| - 1] + [xs[|xs| - 1]];
    }
  }

  lemma {:induction false} RowIn(name: string, attributes: seq<(Attribute, Value)>, attribute: Attribute, value: Value)
    ensures Row(name, attribute, value) in Rows(name, attributes) <==> (attribute, value) in attributes
  {
    if |attributes| > 0 {
      var n := |attributes| - 1;
      RowIn(name, attributes[..n], attribute, value);
      assert attributes == attributes[..n] + [attributes[n]];
    }
  }

  /** After any series of calls, a group's reply rows grant exactly what its last sync's
      plan says, Session-Timeout in seconds included; its check row allows that plan's
      sessions; and a user's password row is exactly that of the last provisioning. */
  lemma {:induction false} TablesGrant(ops: seq<Op>, name: string, attribute: Attribute, value: Value)
    ensures var t, d := Run(ops), Directed(ops);
            && (Row(name, attribute, value) in t.reply <==>
                  name in d.groups && (attribute, value) in ReplyAttributes(d.groups[name]))
            && (Row(name, attribute, value) in t.groupCheck <==>
                  name in d.groups && attribute == SimultaneousUse && value == Sessions(d.groups[name].sessions))
            && (Row(name, attribute, value) in t.check <==>
                  name in d.logins && attribute == CleartextPassword && value == Password(d.logins[name].password))
  {
    var t, d, row := Run(ops), Directed(ops), Row(name, attribute, value);
    TablesAreLastWrites(ops);
    assert GroupMatches(t, d, name) && UserMatches(t, d, name);
    FilterKeeps(Named(name), t.reply, row);
    FilterKeeps(Named(name), t.groupCheck, row);
    FilterKeeps(Named(name), t.check, row);
    if name in d.groups {
      RowIn(name, ReplyAttributes(d.groups[name]), attribute, value);
    }
  }

  /** Different packages never share a group. */
  lemma GroupsAreDistinct(p: string, q: string)
    requires GroupName(p) == GroupName(q)
    ensures p == q
  {
    assert GroupName(p)[4..] == p && GroupName(q)[4..] == q;
  }
}
