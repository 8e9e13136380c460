/** Shard templates: _fill_template and cmd_lease_run_many of microvm/cli.py, _render of
    microvm/playground/server.py, and the material client_token of microvm/lease.py hashes. */
module Template {
  import opened Common
  import opened Json
  import opened LeaseContract
  import opened Sizing
  import opened Text

  // ---------------------------------------------------------------- filling strings

  lemma {:induction false} FillIsInjective(s: string, d: string, e: string)
    requires HasMark(s) && |d| == |e| && Fill(s, d) == Fill(s, e)
    ensures d == e
  {
    if StartsWithMark(s) {
      assert d == Fill(s, d)[..|d|] == Fill(s, e)[..|e|] == e;
    } else {
      assert Fill(s[1..], d) == Fill(s, d)[1..] == Fill(s, e)[1..] == Fill(s[1..], e);
      FillIsInjective(s[1..], d, e);
    }
  }

  /** Two shards get the same string exactly when the template does not mention the shard. */
  lemma FilledAlike(s: string, i: nat, k: nat)
    ensures Fill(s, Decimal(i)) == Fill(s, Decimal(k)) <==> i == k || !HasMark(s)
  {
    var d, e := Decimal(i), Decimal(k);
    if !HasMark(s) {
      NothingToFill(s, d);
      NothingToFill(s, e);
    } else if Fill(s, d) == Fill(s, e) {
      FillLength(s, d);
      FillLength(s, e);
      SameProduct(|d|, |e|, Marks(s));
      FillIsInjective(s, d, e);
      DecimalIsInjective(i, k);
    }
  }

  lemma SameProduct(a: int, b: int, m: int)
    requires m > 0 && a * m == b * m
    ensures a == b
  {
  }

  /** A colon belongs to no placeholder, so a joined template is filled piece by piece. */
  lemma {:induction false} FillColon(a: string, b: string, d: string)
    ensures Fill(a + [':'] + b, d) == Fill(a, d) + [':'] + Fill(b, d)
    ensures HasMark(a + [':'] + b) <==> HasMark(a) || HasMark(b)
  {
    var s := a + [':'] + b;
    if |a| == 0 {
      assert s[1..] == b;
    } else {
      assert s[1..] == a[1..] + [':'] + b;
      FillColon(a[1..], b, d);
      if StartsWithMark(a) {
        assert s[3..] == a[3..] + [':'] + b;
        FillColon(a[3..], b, d);
      } else {
        assert !StartsWithMark(s);
      }
    }
  }

  // ---------------------------------------------------------------- filling JSON

  /** _fill_template(obj, i) and _render(tmpl, i), given str(i). */
  function FillJson(j: Json, d: string): Json {
    match j
    case Str(s) => Str(Fill(s, d))
    case Arr(items) => Arr(FillItems(items, d))
    case Obj(fields) => Obj(FillFields(fields, d))
    case _ => j
  }

  function FillItems(items: Items, d: string): Items {
    match items
    case Nil => Nil
    case Cons(v, more) => Cons(FillJson(v, d), FillItems(more, d))
  }

  function FillFields(fields: Fields, d: string): Fields {
    match fields
    case Empty => Empty
    case More(k, v, more) => More(k, FillJson(v, d), FillFields(more, d))
  }

  /** Some string value, at any depth, mentions the shard. */
  predicate Mentions(j: Json) {
    match j
    case Str(s) => HasMark(s)
    case Arr(items) => ItemsMention(items)
    case Obj(fields) => FieldsMention(fields)
    case _ => false
  }

  predicate ItemsMention(items: Items) { items.Cons? && (Mentions(items.head) || ItemsMention(items.tail)) }

  predicate FieldsMention(fields: Fields) { fields.More? && (Mentions(fields.value) || FieldsMention(fields.rest)) }

  /** Equal but for the text of their string values: same arrays, same keys in the same order, same scalars. */
  predicate SameShape(a: Json, b: Json) {
    match (a, b)
    case (Str(_), Str(_)) => true
    case (Arr(s), Arr(t)) => SameItems(s, t)
    case (Obj(s), Obj(t)) => SameFields(s, t)
    case _ => a == b
  }

  predicate SameItems(a: Items, b: Items) {
    a.Cons? == b.Cons? && (a.Cons? ==> SameShape(a.head, b.head) && SameItems(a.tail, b.tail))
  }

  predicate SameFields(a: Fields, b: Fields) {
    a.More? == b.More? && (a.More? ==> a.key == b.key && SameShape(a.value, b.value) && SameFields(a.rest, b.rest))
  }

  lemma {:induction false} FillKeepsShape(j: Json, d: string)
    ensures SameShape(j, FillJson(j, d))
  {
    match j
    case Arr(items) => ItemsKeepShape(items, d);
    case Obj(fields) => FieldsKeepShape(fields, d);
    case _ =>
  }

  lemma {:induction false} ItemsKeepShape(items: Items, d: string)
    ensures SameItems(items, FillItems(items, d))
  {
    if items.Cons? {
      FillKeepsShape(items.head, d);
      ItemsKeepShape(items.tail, d);
    }
  }

  lemma {:induction false} FieldsKeepShape(fields: Fields, d: string)
    ensures SameFields(fields, FillFields(fields, d))
    ensures forall k :: FillFields(fields, d).Has(k) <==> fields.Has(k)
  {
    if fields.More? {
      FillKeepsShape(fields.value, d);
      FieldsKeepShape(fields.rest, d);
    }
  }

  /** A task filled for a shard can be printed whenever its template can. */
  lemma {:induction false} FillKeepsWellFormed(j: Json, d: string)
    requires WellFormed(j)
    ensures WellFormed(FillJson(j, d))
  {
    match j
    case Arr(items) => ItemsKeepWellFormed(items, d);
    case Obj(fields) => FieldsKeepWellFormed(fields, d);
    case _ =>
  }

  lemma {:induction false} ItemsKeepWellFormed(items: Items, d: string)
    requires WellFormedItems(items)
    ensures WellFormedItems(FillItems(items, d))
  {
    if items.Cons? {
      FillKeepsWellFormed(items.head, d);
      ItemsKeepWellFormed(items.tail, d);
    }
  }

  lemma {:induction false} FieldsKeepWellFormed(fields: Fields, d: string)
    requires WellFormedFields(fields)
    ensures WellFormedFields(FillFields(fields, d))
  {
    if fields.More? {
      FillKeepsWellFormed(fields.value, d);
      FieldsKeepWellFormed(fields.rest, d);
      FieldsKeepShape(fields.rest, d);
    }
  }

  lemma {:induction false} NothingToFillIn(j: Json, d: string)
    requires !Mentions(j)
    ensures FillJson(j, d) == j
  {
    match j
    case Str(s) => NothingToFill(s, d);
    case Arr(items) => NothingInItems(items, d);
    case Obj(fields) => NothingInFields(fields, d);
    case _ =>
  }

  lemma {:induction false} NothingInItems(items: Items, d: string)
    requires !ItemsMention(items)
    ensures FillItems(items, d) == items
  {
    if items.Cons? {
      NothingToFillIn(items.head, d);
      NothingInItems(items.tail, d);
    }
  }

  lemma {:induction false} NothingInFields(fields: Fields, d: string)
    requires !FieldsMention(fields)
    ensures FillFields(fields, d) == fields
  {
    if fields.More? {
      NothingToFillIn(fields.value, d);
      NothingInFields(fields.rest, d);
    }
  }

  lemma {:induction false} FilledMentionsNone(j: Json, i: nat)
    ensures !Mentions(FillJson(j, Decimal(i)))
  {
    match j
    case Str(s) => FillLeavesNone(s, Decimal(i));
    case Arr(items) => ItemsMentionNone(items, i);
    case Obj(fields) => FieldsMentionNone(fields, i);
    case _ =>
  }

  lemma {:induction false} ItemsMentionNone(items: Items, i: nat)
    ensures !ItemsMention(FillItems(items, Decimal(i)))
  {
    if items.Cons? {
      FilledMentionsNone(items.head, i);
      ItemsMentionNone(items.tail, i);
    }
  }

  lemma {:induction false} FieldsMentionNone(fields: Fields, i: nat)
    ensures !FieldsMention(FillFields(fields, Decimal(i)))
  {
    if fields.More? {
      FilledMentionsNone(fields.value, i);
      FieldsMentionNone(fields.rest, i);
    }
  }

  /** A filled template mentions no shard any more, so filling it again, for any shard, changes nothing. */
  lemma FillIsIdempotent(j: Json, i: nat, k: nat)
    ensures var filled := FillJson(j, Decimal(i)); !Mentions(filled) && FillJson(filled, Decimal(k)) == filled
  {
    FilledMentionsNone(j, i);
    NothingToFillIn(FillJson(j, Decimal(i)), Decimal(k));
  }

  /** Two shards get the same task exactly when no string value of the template mentions the shard. */
  lemma {:induction false} TasksAlike(j: Json, i: nat, k: nat)
    ensures FillJson(j, Decimal(i)) == FillJson(j, Decimal(k)) <==> i == k || !Mentions(j)
  {
    match j
    case Str(s) => FilledAlike(s, i, k);
    case Arr(items) => ItemsAlike(items, i, k);
    case Obj(fields) => FieldsAlike(fields, i, k);
    case _ =>
  }

  lemma {:induction false} ItemsAlike(items: Items, i: nat, k: nat)
    ensures FillItems(items, Decimal(i)) == FillItems(items, Decimal(k)) <==> i == k || !ItemsMention(items)
  {
    if items.Cons? {
      TasksAlike(items.head, i, k);
      ItemsAlike(items.tail, i, k);
    }
  }

  lemma {:induction false} FieldsAlike(fields: Fields, i: nat, k: nat)
    ensures FillFields(fields, Decimal(i)) == FillFields(fields, Decimal(k)) <==> i == k || !FieldsMention(fields)
  {
    if fields.More? {
      TasksAlike(fields.value, i, k);
      FieldsAlike(fields.rest, i, k);
    }
  }

  // ---------------------------------------------------------------- client tokens

  /** What client_token hashes; a lease without a token adds a fresh uuid. */
  function Material(kind: string, token: string, id: string, salt: string, uuid: string): string {
    kind + [':'] + token + [':'] + id + [':'] + salt + (if token == "" then [':'] + uuid else "")
  }

  lemma CancelAround(p: string, a: string, b: string, s: string, u: string, v: string)
    requires |u| == |v|
    ensures p + a + s + u == p + b + s + v <==> a == b && u == v
  {
    var x, y := p + a + s + u, p + b + s + v;
    if x == y {
      assert |a| == |b|;
      assert a == x[|p|..|p| + |a|] == y[|p|..|p| + |b|] == b;
      assert u == x[|x| - |u|..] == y[|y| - |v|..] == v;
    }
  }

  /** Two different shards share their client token, up to a hash collision, exactly when neither template
      mentions the shard and, for a lease without a token, the two uuids collide; colons anywhere in the
      templates, the kind or the salt do not matter. */
  lemma MaterialsAlike(kind: string, token: string, id: string, salt: string, i: nat, k: nat, u: string, v: string)
    requires i != k && |u| == |v|
    ensures Material(kind, Fill(token, Decimal(i)), Fill(id, Decimal(i)), salt, u) ==
            Material(kind, Fill(token, Decimal(k)), Fill(id, Decimal(k)), salt, v)
            <==> !HasMark(token) && !HasMark(id) && (token == "" ==> u == v)
  {
    var d, e := Decimal(i), Decimal(k);
    var joined := token + [':'] + id;
    FillColon(token, id, d);
    FillColon(token, id, e);
    FilledAlike(joined, i, k);
    FilledIsEmpty(token, d);
    FilledIsEmpty(token, e);
    var x := if token == "" then [':'] + u else "";
    var y := if token == "" then [':'] + v else "";
    CancelAround(kind + [':'], Fill(joined, d), Fill(joined, e), [':'] + salt, x, y);
    assert token == "" ==> x[1..] == u && y[1..] == v;
    MaterialText(kind, Fill(token, d), Fill(id, d), salt, x);
    MaterialText(kind, Fill(token, e), Fill(id, e), salt, y);
  }

  lemma FilledIsEmpty(s: string, d: string)
    requires |d| > 0
    ensures Fill(s, d) == "" <==> s == ""
  {
  }

  lemma MaterialText(kind: string, token: string, id: string, salt: string, tail: string)
    ensures kind + [':'] + token + [':'] + id + [':'] + salt + tail ==
            (kind + [':']) + (token + [':'] + id) + ([':'] + salt) + tail
  {
  }

  // ---------------------------------------------------------------- mvm lease run --shards N

  /** The command line; an absent option is "". */
  datatype Args = Args(
    kind: string, shards: int, tokenTemplate: string, id: string, taskTemplate: string, task: string,
    region: string, target: Json, heartbeat: Json, approve: bool)

  /** sys.exit with a message exits with code 1. */
  datatype Run = Exit(code: int) | BadBaselineRaised | Launch(leases: seq<Lease>, tasks: seq<Json>)

  /** The JSON text the tasks come from: --task-template, or --task, or none. */
  function TaskText(args: Args): string { if args.taskTemplate != "" then args.taskTemplate else args.task }

  function TaskTemplate(args: Args): Option<Json> {
    if TaskText(args) == "" then Some(Obj(Empty)) else Loads(TaskText(args))
  }

  /** The command line alone lets the shards be built. */
  predicate ArgsAreGood(args: Args) {
    && args.shards >= 1
    && (args.kind == "none" <==> args.tokenTemplate == "")
    && TaskTemplate(args).Some? && TaskTemplate(args).value.Obj?
  }

  function ShardLease(args: Args, i: nat): Lease {
    Lease(Str(args.kind), Str(Fill(args.tokenTemplate, Decimal(i))), Str(args.region), args.target, args.heartbeat,
          if args.id != "" then Str(Fill(args.id, Decimal(i))) else Null)
  }

  method RunMany(args: Args, policy: LeasePolicy, baselineMib: int, account: Account) returns (run: Run)
    ensures run == Exit(1) <==> !ArgsAreGood(args)
    ensures ArgsAreGood(args) ==>
              match Plan(args.shards, baselineMib, policy, account)
              case None => run == BadBaselineRaised
              case Some(plan) =>
                && (run == Exit(2) <==> plan.rejected.Some? ||
                                        (args.shards > plan.concurrency && (plan.needsApproval ==> args.approve)))
                && (run == Exit(3) <==> plan.rejected.None? && plan.needsApproval && !args.approve)
                && (run.Exit? || (run.Launch? && |run.leases| == |run.tasks| == args.shards))
    ensures run.Launch? ==> forall i :: 0 <= i < |run.leases| ==>
              i < |run.tasks| && run.leases[i] == ShardLease(args, i) &&
              run.tasks[i] == FillJson(TaskTemplate(args).value, Decimal(i))
    // the gates passed here are those of lease_many, which therefore cannot refuse what it is given
    ensures run.Launch? ==>
              && |run.leases| == |run.tasks|
              && LeaseManyLaunches(run.leases, run.tasks, policy, baselineMib, account) ==
                   Launched(Zip(run.leases, run.tasks))
  {
    if args.shards < 1 { return Exit(1); }
    var kind := if args.kind != "none" || args.tokenTemplate == "" then args.kind else "none";
    if args.tokenTemplate != "" && kind == "none" { return Exit(1); }
    if kind != "none" && args.tokenTemplate == "" { return Exit(1); }
    var template;
    if args.taskTemplate != "" {
      template := Loads(args.taskTemplate);
    } else if args.task != "" {
      template := Loads(args.task);
    } else {
      template := Some(Obj(Empty));
    }
    if template.None? || !template.value.Obj? { return Exit(1); }
    var leases, tasks := [], [];
    for i := 0 to args.shards
      invariant |leases| == |tasks| == i
      invariant forall k :: 0 <= k < i ==>
                  leases[k] == ShardLease(args, k) && tasks[k] == FillJson(TaskTemplate(args).value, Decimal(k))
    {
      var token := if args.tokenTemplate != "" then Fill(args.tokenTemplate, Decimal(i)) else "";
      var id := if args.id != "" then Str(Fill(args.id, Decimal(i))) else Null;
      leases := leases + [Lease(Str(kind), Str(token), Str(args.region), args.target, args.heartbeat, id)];
      tasks := tasks + [FillJson(template.value, Decimal(i))];
    }
    var planned := Plan(args.shards, baselineMib, policy, account);
    if planned.None? { return BadBaselineRaised; }
    var plan := planned.value;
    if plan.rejected.Some? { return Exit(2); }
    if plan.needsApproval && !args.approve { return Exit(3); }
    if args.shards > plan.concurrency { return Exit(2); }
    run := Launch(leases, tasks);
  }

  /** What a lease's client token is made from when its text fields are strings. */
  function LeaseMaterial(l: Lease, uuid: string): string
    requires l.kind.Str? && l.token.Str? && (l.id.Null? || l.id.Str?)
  {
    Material(l.kind.s, l.token.s, if l.id.Null? then "" else l.id.s, "", uuid)
  }

  /** The shards of a good command line get pairwise distinct client tokens if and only if the token template
      or --id mentions the shard, or the leases have no token (kind none) and their uuids differ. */
  lemma ShardTokensAreDistinct(args: Args, i: nat, k: nat, u: string, v: string)
    requires ArgsAreGood(args) && i < k < args.shards && |u| == |v|
    ensures LeaseMaterial(ShardLease(args, i), u) != LeaseMaterial(ShardLease(args, k), v) <==>
            HasMark(args.tokenTemplate) || HasMark(args.id) || (args.kind == "none" && u != v)
  {
    MaterialsAlike(args.kind, args.tokenTemplate, args.id, "", i, k, u, v);
  }
}
