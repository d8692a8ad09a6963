/**
 Fair sharing between CFQ groups (cfq-iosched.c): the group service tree orders groups by the virtual
 disk time they have been charged, each charge being scaled by the group's weight.
 */
module GroupFairness {
  import opened Lists

  const CFQ_SERVICE_SHIFT := 4096        // 1 << 12
  const BLKIO_WEIGHT_DEFAULT := 500
  const SCALE := CFQ_SERVICE_SHIFT * BLKIO_WEIGHT_DEFAULT

  datatype Group = Group(id: nat, weight: nat, vdisktime: nat)

  /** The service tree: its groups in tree order, the cached leftmost node, and min_vdisktime. */
  datatype Tree = Tree(groups: List<Group>, left: Option<nat>, minVdisktime: nat)

  /** cfq_scale_slice */
  function Scale(slice: nat, weight: nat): nat
    requires weight > 0
  {
    slice * SCALE / weight
  }

  /** __cfq_group_service_tree_add: behind every group that is not later. */
  function Insert(l: List<Group>, g: Group): List<Group> {
    match l
    case Nil => Cons(g, Nil)
    case Cons(h, r) => if g.vdisktime < h.vdisktime then Cons(g, l) else Cons(h, Insert(r, g))
  }

  function Erase(l: List<Group>, id: nat): List<Group> {
    match l
    case Nil => Nil
    case Cons(h, r) => if h.id == id then r else Cons(h, Erase(r, id))
  }

  function Larger(a: nat, b: nat): nat {
    if a > b then a else b
  }

  /** cfq_get_next_cfqg: the first group becomes active and min_vdisktime catches up with it. */
  function GetNext(t: Tree): Tree {
    if t.groups.Nil? then t
    else t.(left := Some(t.groups.head.id), minVdisktime := Larger(t.minVdisktime, t.groups.head.vdisktime))
  }

  /** cfq_rb_erase and __cfq_group_service_tree_add with the leftmost cache */
  function EraseNode(t: Tree, id: nat): Tree {
    t.(groups := Erase(t.groups, id), left := if t.left == Some(id) then None else t.left)
  }

  function AddNode(t: Tree, g: Group): Tree {
    var l := Insert(t.groups, g);
    t.(groups := l, left := if t.groups.Nil? || g.vdisktime < t.groups.head.vdisktime then Some(g.id) else t.left)
  }

  /** cfq_group_served on the active group */
  function Charge(t: Tree, slice: nat): Tree
    requires t.groups.Cons? ==> t.groups.head.weight > 0
  {
    if t.groups.Nil? then t
    else
      var g := t.groups.head;
      AddNode(EraseNode(t, g.id), g.(vdisktime := g.vdisktime + Scale(slice, g.weight)))
  }

  /** A group that is put on the tree starts behind the last one there, by the idle delay. */
  function EntryTime(t: Tree, delay: nat): nat {
    if t.groups.Cons? then Last(t.groups).vdisktime + delay else t.minVdisktime
  }

  /** cfq_group_service_tree_add: nothing happens to a group that is on the tree. */
  function EnterNode(t: Tree, id: nat, weight: nat, delay: nat): Tree {
    if Has(t.groups, id) then t else AddNode(t, Group(id, weight, EntryTime(t, delay)))
  }

  type Weight = n: nat | n > 0 witness 1

  /** The active group is the first one, is charged for a slice, some group leaves, or one comes. */
  datatype Event = Serve(slice: nat) | Leave(id: nat) | Enter(id: nat, weight: Weight, delay: nat)

  /** All weights are at least w. */
  predicate Weighty(l: List<Group>, w: nat) {
    l.Cons? ==> l.head.weight >= w && Weighty(l.tail, w)
  }

  function Apply(t: Tree, e: Event): Tree
    requires Weighty(t.groups, 1)
  {
    match e
    case Serve(slice) => Charge(GetNext(t), slice)
    case Leave(id) => EraseNode(t, id)
    case Enter(id, weight, delay) => EnterNode(t, id, weight, delay)
  }

  /** No slice of the run is longer than c. */
  predicate Slices(es: List<Event>, c: nat) {
    es.Cons? ==> (es.head.Serve? ==> es.head.slice <= c) && Slices(es.tail, c)
  }

  /** No group that comes is lighter than w. */
  predicate Coming(es: List<Event>, w: nat) {
    es.Cons? ==> (es.head.Enter? ==> es.head.weight >= w) && Coming(es.tail, w)
  }

  /** How far those who come put themselves behind. */
  function Delays(es: List<Event>): nat {
    match es
    case Nil => 0
    case Cons(e, r) => (if e.Enter? then e.delay else 0) + Delays(r)
  }

  // ---------------------------------------------------------------- order

  /** No group is earlier than n. */
  predicate NotBefore(l: List<Group>, n: nat) {
    l.Cons? ==> n <= l.head.vdisktime && NotBefore(l.tail, n)
  }

  /** No group is later than n. */
  predicate NotAfter(l: List<Group>, n: nat) {
    l.Cons? ==> l.head.vdisktime <= n && NotAfter(l.tail, n)
  }

  predicate Sorted(l: List<Group>) {
    l.Cons? ==> NotBefore(l.tail, l.head.vdisktime) && Sorted(l.tail)
  }

  predicate Has(l: List<Group>, id: nat) {
    l.Cons? && (l.head.id == id || Has(l.tail, id))
  }

  predicate Unique(l: List<Group>) {
    l.Cons? ==> !Has(l.tail, l.head.id) && Unique(l.tail)
  }

  /** The leftmost cache is empty or right, min_vdisktime is not past any group, and the order is by vdisktime. */
  ghost predicate Valid(t: Tree) {
    && Sorted(t.groups) && Unique(t.groups) && NotBefore(t.groups, t.minVdisktime)
    && (t.left.Some? ==> t.groups.Cons? && t.left.value == t.groups.head.id)
  }

  lemma {:induction false} Earlier(l: List<Group>, m: nat, n: nat)
    requires m <= n
    ensures NotBefore(l, n) ==> NotBefore(l, m)
    ensures NotAfter(l, m) ==> NotAfter(l, n)
  {
    if l.Cons? { Earlier(l.tail, m, n); }
  }

  lemma {:induction false} InsertKeeps(l: List<Group>, g: Group, lo: nat, hi: nat, w: nat)
    ensures NotBefore(Insert(l, g), lo) <==> NotBefore(l, lo) && lo <= g.vdisktime
    ensures NotAfter(Insert(l, g), hi) <==> NotAfter(l, hi) && g.vdisktime <= hi
    ensures Weighty(Insert(l, g), w) <==> Weighty(l, w) && g.weight >= w
  {
    if l.Cons? { InsertKeeps(l.tail, g, lo, hi, w); }
  }

  lemma {:induction false} InsertSorted(l: List<Group>, g: Group)
    requires Sorted(l)
    ensures Sorted(Insert(l, g))
  {
    if l.Cons? {
      if g.vdisktime < l.head.vdisktime {
        Earlier(l.tail, g.vdisktime, l.head.vdisktime);
      } else {
        InsertSorted(l.tail, g);
        InsertKeeps(l.tail, g, l.head.vdisktime, 0, 0);
      }
    }
  }

  lemma {:induction false} InsertHas(l: List<Group>, g: Group)
    ensures forall i :: Has(Insert(l, g), i) <==> Has(l, i) || i == g.id
    ensures Unique(l) && !Has(l, g.id) ==> Unique(Insert(l, g))
  {
    if l.Cons? { InsertHas(l.tail, g); }
  }

  lemma {:induction false} EraseKeeps(l: List<Group>, id: nat, lo: nat, hi: nat, w: nat)
    ensures NotBefore(l, lo) ==> NotBefore(Erase(l, id), lo)
    ensures NotAfter(l, hi) ==> NotAfter(Erase(l, id), hi)
    ensures Weighty(l, w) ==> Weighty(Erase(l, id), w)
    ensures forall i :: Has(Erase(l, id), i) ==> Has(l, i)
  {
    if l.Cons? && l.head.id != id { EraseKeeps(l.tail, id, lo, hi, w); }
  }

  lemma {:induction false} EraseSorted(l: List<Group>, id: nat)
    requires Sorted(l)
    ensures Sorted(Erase(l, id)) && (Unique(l) ==> Unique(Erase(l, id)))
  {
    if l.Cons? && l.head.id != id {
      EraseSorted(l.tail, id);
      EraseKeeps(l.tail, id, l.head.vdisktime, 0, 0);
    }
  }

  /** The leftmost cache stays right, the tree stays sorted, and min_vdisktime stays behind every group. */
  lemma {:induction false} ApplyValid(t: Tree, e: Event)
    requires Valid(t) && Weighty(t.groups, 1)
    ensures Valid(Apply(t, e))
    ensures Apply(t, e).minVdisktime >= t.minVdisktime
  {
    match e
    case Serve(slice) =>
      if t.groups.Cons? {
        var n := GetNext(t);
        var g := t.groups.head;
        var h := g.(vdisktime := g.vdisktime + Scale(slice, g.weight));
        InsertSorted(t.groups.tail, h);
        InsertHas(t.groups.tail, h);
        InsertKeeps(t.groups.tail, h, n.minVdisktime, 0, 1);
      }
    case Leave(id) =>
      EraseSorted(t.groups, id);
      EraseKeeps(t.groups, id, t.minVdisktime, 0, 1);
    case Enter(id, weight, delay) =>
      var g := Group(id, weight, EntryTime(t, delay));
      InsertSorted(t.groups, g);
      InsertHas(t.groups, g);
      InsertKeeps(t.groups, g, t.minVdisktime, 0, 1);
      if t.groups.Cons? { LastIsLatest(t.groups); }
  }

  // ---------------------------------------------------------------- scaling

  lemma {:induction false} TimesMore(k: nat, q: nat, m: nat)
    requires k <= q
    ensures k * m <= q * m
  {
  }

  lemma {:induction false} TimesCancels(q: nat, k: nat, m: nat)
    requires q * m < k * m
    ensures q < k
  {
  }

  lemma {:induction false} Quotient(a: nat, m: nat, q: nat)
    requires m > 0 && q * m <= a
    ensures q <= a / m
  {
    assert a < (a / m + 1) * m;
    TimesCancels(q, a / m + 1, m);
  }

  lemma {:induction false} DivideLess(a: nat, b: nat, w: nat)
    requires w > 0 && a <= b
    ensures a / w <= b / w
  {
    Quotient(b, w, a / w);
  }

  lemma {:induction false} DivideByMore(a: nat, w: nat, m: nat)
    requires 0 < m <= w
    ensures a / w <= a / m
  {
    var q := a / w;
    assert q * w <= a;
    TimesMore(m, w, q);
    Quotient(a, m, q);
  }

  /** A longer slice or a smaller weight costs more. */
  lemma {:induction false} ScaleBound(slice: nat, weight: nat, c: nat, w: nat)
    requires slice <= c && 0 < w <= weight
    ensures Scale(slice, weight) <= Scale(c, w)
  {
    assert slice * SCALE <= c * SCALE;
    DivideLess(slice * SCALE, c * SCALE, weight);
    DivideByMore(c * SCALE, weight, w);
  }

  // ---------------------------------------------------------------- runs

  lemma {:induction false} ApplyWeighty(t: Tree, e: Event, w: nat)
    requires Weighty(t.groups, w) && Weighty(t.groups, 1) && (e.Enter? ==> e.weight >= w)
    ensures Weighty(Apply(t, e).groups, w) && Weighty(Apply(t, e).groups, 1)
  {
    match e
    case Serve(slice) =>
      if t.groups.Cons? {
        var g := t.groups.head;
        InsertKeeps(t.groups.tail, g.(vdisktime := g.vdisktime + Scale(slice, g.weight)), 0, 0, w);
        InsertKeeps(t.groups.tail, g.(vdisktime := g.vdisktime + Scale(slice, g.weight)), 0, 0, 1);
      }
    case Leave(id) =>
      EraseKeeps(t.groups, id, 0, 0, w);
      EraseKeeps(t.groups, id, 0, 0, 1);
    case Enter(id, weight, delay) =>
      var g := Group(id, weight, EntryTime(t, delay));
      InsertKeeps(t.groups, g, 0, 0, w);
      InsertKeeps(t.groups, g, 0, 0, 1);
  }

  function After(t: Tree, es: List<Event>): Tree
    requires Weighty(t.groups, 1)
    decreases es
  {
    match es
    case Nil => t
    case Cons(e, r) => ApplyWeighty(t, e, 1); After(Apply(t, e), r)
  }

  /** The latest group is at most b behind the earliest: the spread of the tree. */
  ghost predicate Near(l: List<Group>, b: nat) {
    l.Cons? ==> NotAfter(l, l.head.vdisktime + b)
  }

  function Spread(l: List<Group>): nat
    requires Sorted(l)
  {
    if l.Nil? then 0 else LastIsLatest(l); Last(l).vdisktime - l.head.vdisktime
  }

  lemma {:induction false} LastIsLatest(l: List<Group>)
    requires l.Cons? && Sorted(l)
    ensures NotAfter(l, Last(l).vdisktime) && l.head.vdisktime <= Last(l).vdisktime
  {
    if l.tail.Cons? { LastIsLatest(l.tail); }
  }

  lemma {:induction false} NearIsSpread(l: List<Group>, b: nat)
    requires Sorted(l)
    ensures Near(l, b) <==> Spread(l) <= b
  {
    if l.Cons? {
      LastIsLatest(l);
      if Spread(l) <= b { Earlier(l, Last(l).vdisktime, l.head.vdisktime + b); }
      LastBounded(l, l.head.vdisktime + b);
    }
  }

  lemma {:induction false} LastBounded(l: List<Group>, n: nat)
    requires l.Cons?
    ensures NotAfter(l, n) ==> Last(l).vdisktime <= n
  {
    if l.tail.Cons? { LastBounded(l.tail, n); }
  }

  lemma {:induction false} ApplyNear(t: Tree, e: Event, b: nat, c: nat, w: nat)
    requires Valid(t) && Weighty(t.groups, w) && w > 0 && Weighty(t.groups, 1) && Near(t.groups, b)
    requires Scale(c, w) <= b && (e.Serve? ==> e.slice <= c)
    ensures Near(Apply(t, e).groups, b + if e.Enter? then e.delay else 0)
  {
    if t.groups.Cons? {
      var g, r := t.groups.head, t.groups.tail;
      var low := g.vdisktime;
      match e
      case Serve(slice) =>
        var h := g.(vdisktime := low + Scale(slice, g.weight));
        ScaleBound(slice, g.weight, c, w);
        InsertKeeps(r, h, low, low + b, w);
        var l := Insert(r, h);
        Earlier(l, low + b, l.head.vdisktime + b);
      case Leave(id) =>
        var l := Erase(t.groups, id);
        EraseKeeps(t.groups, id, low, low + b, w);
        if l.Cons? { Earlier(l, low + b, l.head.vdisktime + b); }
      case Enter(id, weight, delay) =>
        var l := Apply(t, e).groups;
        LastIsLatest(t.groups);
        LastBounded(t.groups, low + b);
        Earlier(t.groups, low + b, low + b + delay);
        InsertKeeps(t.groups, Group(id, weight, EntryTime(t, delay)), low, low + b + delay, w);
        Earlier(l, low + b + delay, l.head.vdisktime + (b + delay));
    }
  }

  /** Whatever is served, whoever leaves and whoever comes, the spread stays within its start or one full slice
      of the lightest group, and what those who come put themselves behind; min_vdisktime only grows and never
      passes a group. */
  lemma {:induction false} SpreadBound(t: Tree, es: List<Event>, b: nat, c: nat, w: nat)
    requires Valid(t) && Weighty(t.groups, w) && w > 0 && Weighty(t.groups, 1)
    requires Slices(es, c) && Coming(es, w)
    requires Spread(t.groups) <= b && Scale(c, w) <= b
    ensures var r := After(t, es);
            && Valid(r) && Spread(r.groups) <= b + Delays(es)
            && r.minVdisktime >= t.minVdisktime && NotBefore(r.groups, r.minVdisktime)
    decreases es
  {
    if es.Cons? {
      var n := Apply(t, es.head);
      ApplyValid(t, es.head);
      ApplyWeighty(t, es.head, w);
      NearIsSpread(t.groups, b);
      ApplyNear(t, es.head, b, c, w);
      var d := b + if es.head.Enter? then es.head.delay else 0;
      NearIsSpread(n.groups, d);
      SpreadBound(n, es.tail, d, c, w);
    }
  }

  // ---------------------------------------------------------------- service

  function Find(l: List<Group>, id: nat): Group
    requires Has(l, id)
  {
    if l.head.id == id then l.head else Find(l.tail, id)
  }

  /** The slices the run serves to a group: their scaled sum, their real sum, and their number. */
  function Service(t: Tree, es: List<Event>, id: nat): nat
    requires Weighty(t.groups, 1)
    decreases es
  {
    if es.Nil? then 0
    else
      ApplyWeighty(t, es.head, 1);
      (if Serves(t, es.head, id) then Scale(es.head.slice, t.groups.head.weight) else 0) + Service(Apply(t, es.head), es.tail, id)
  }

  function ServedTime(t: Tree, es: List<Event>, id: nat): nat
    requires Weighty(t.groups, 1)
    decreases es
  {
    if es.Nil? then 0
    else
      ApplyWeighty(t, es.head, 1);
      (if Serves(t, es.head, id) then es.head.slice else 0) + ServedTime(Apply(t, es.head), es.tail, id)
  }

  function Turns(t: Tree, es: List<Event>, id: nat): nat
    requires Weighty(t.groups, 1)
    decreases es
  {
    if es.Nil? then 0
    else
      ApplyWeighty(t, es.head, 1);
      (if Serves(t, es.head, id) then 1 else 0) + Turns(Apply(t, es.head), es.tail, id)
  }

  predicate Serves(t: Tree, e: Event, id: nat) {
    e.Serve? && t.groups.Cons? && t.groups.head.id == id
  }

  /** The group is on the tree all the time. */
  predicate Stays(t: Tree, es: List<Event>, id: nat)
    requires Weighty(t.groups, 1)
    decreases es
  {
    if es.Nil? then Has(t.groups, id)
    else
      ApplyWeighty(t, es.head, 1);
      Has(t.groups, id) && Stays(Apply(t, es.head), es.tail, id)
  }

  /** The group comes at some time. */
  predicate Comes(es: List<Event>, id: nat) {
    es.Cons? && ((es.head.Enter? && es.head.id == id) || Comes(es.tail, id))
  }

  /** A group that is there at the end and never came has stayed. */
  lemma {:induction false} StaysUnlessComes(t: Tree, es: List<Event>, id: nat)
    requires Valid(t) && Weighty(t.groups, 1) && Has(After(t, es).groups, id) && !Comes(es, id)
    ensures Stays(t, es, id)
    decreases es
  {
    hide Apply, Valid;
    if es.Cons? {
      ApplyValid(t, es.head);
      ApplyWeighty(t, es.head, 1);
      StaysUnlessComes(Apply(t, es.head), es.tail, id);
      StepHas(t, es.head, id);
    }
  }

  lemma {:induction false} StepHas(t: Tree, e: Event, id: nat)
    requires Weighty(t.groups, 1) && Has(Apply(t, e).groups, id) && !(e.Enter? && e.id == id)
    ensures Has(t.groups, id)
  {
    match e
    case Serve(slice) =>
      if t.groups.Cons? {
        var g := t.groups.head;
        InsertHas(t.groups.tail, g.(vdisktime := g.vdisktime + Scale(slice, g.weight)));
      }
    case Leave(other) => EraseKeeps(t.groups, other, 0, 0, 0);
    case Enter(other, weight, delay) => InsertHas(t.groups, Group(other, weight, EntryTime(t, delay)));
  }

  lemma {:induction false} InsertFind(l: List<Group>, g: Group, id: nat)
    requires !Has(l, g.id)
    ensures Has(Insert(l, g), id) <==> Has(l, id) || id == g.id
    ensures Has(l, id) ==> Find(Insert(l, g), id) == Find(l, id)
    ensures Has(Insert(l, g), g.id) && Find(Insert(l, g), g.id) == g
  {
    InsertHas(l, g);
    if l.Cons? { InsertFind(l.tail, g, id); }
  }

  lemma {:induction false} EraseFind(l: List<Group>, other: nat, id: nat)
    requires Unique(l) && Has(Erase(l, other), id)
    ensures Has(l, id) && Find(l, id) == Find(Erase(l, other), id)
  {
    EraseKeeps(l, other, 0, 0, 0);
    if l.head.id != other && l.head.id != id { EraseFind(l.tail, other, id); }
  }

  /** One step moves the virtual time of the served group only, by what it is charged. */
  lemma {:induction false} StepFind(t: Tree, e: Event, id: nat)
    requires Valid(t) && Weighty(t.groups, 1) && Has(t.groups, id) && Has(Apply(t, e).groups, id)
    ensures var g, h := Find(t.groups, id), Find(Apply(t, e).groups, id);
            && h.weight == g.weight
            && h.vdisktime == g.vdisktime + if Serves(t, e, id) then Scale(e.slice, t.groups.head.weight) else 0
  {
    match e
    case Serve(slice) =>
      if t.groups.Cons? {
        var g := t.groups.head;
        InsertFind(t.groups.tail, g.(vdisktime := g.vdisktime + Scale(slice, g.weight)), id);
      }
    case Leave(other) => EraseFind(t.groups, other, id);
    case Enter(other, weight, delay) =>
      if !Has(t.groups, other) { InsertFind(t.groups, Group(other, weight, EntryTime(t, delay)), id); }
  }

  /** A group that stays has its virtual time advanced by exactly its scaled service. */
  lemma {:induction false} ServiceIsVdisktime(t: Tree, es: List<Event>, id: nat)
    requires Valid(t) && Weighty(t.groups, 1) && Stays(t, es, id)
    ensures Has(After(t, es).groups, id)
    ensures var g, h := Find(t.groups, id), Find(After(t, es).groups, id);
            h.weight == g.weight && h.vdisktime == g.vdisktime + Service(t, es, id)
    decreases es
  {
    if es.Cons? {
      ApplyValid(t, es.head);
      ApplyWeighty(t, es.head, 1);
      ServiceIsVdisktime(Apply(t, es.head), es.tail, id);
      StepFind(t, es.head, id);
    }
  }

  lemma {:induction false} FindBounded(l: List<Group>, id: nat, lo: nat, hi: nat)
    requires Has(l, id)
    ensures NotBefore(l, lo) ==> lo <= Find(l, id).vdisktime
    ensures NotAfter(l, hi) ==> Find(l, id).vdisktime <= hi
    ensures Weighty(l, lo) ==> lo <= Find(l, id).weight
  {
    if l.head.id != id { FindBounded(l.tail, id, lo, hi); }
  }

  lemma {:induction false} SpreadOfTwo(l: List<Group>, i: nat, j: nat)
    requires Sorted(l) && Has(l, i) && Has(l, j)
    ensures Find(l, i).vdisktime <= Find(l, j).vdisktime + Spread(l)
  {
    LastIsLatest(l);
    Earlier(l.tail, l.head.vdisktime, l.head.vdisktime);
    FindBounded(l, i, 0, Last(l).vdisktime);
    FindBounded(l, j, l.head.vdisktime, 0);
  }

  /** The scaled service of two groups that stay on the tree differs by at most twice the bound on the spread
      and what those who came put themselves behind. */
  lemma {:induction false} ServiceIsFair(t: Tree, es: List<Event>, b: nat, c: nat, w: nat, i: nat, j: nat)
    requires Valid(t) && Weighty(t.groups, w) && w > 0 && Weighty(t.groups, 1)
    requires Slices(es, c) && Coming(es, w)
    requires Spread(t.groups) <= b && Scale(c, w) <= b
    requires Stays(t, es, i) && Stays(t, es, j)
    ensures Service(t, es, i) <= Service(t, es, j) + 2 * b + Delays(es)
  {
    SpreadBound(t, es, b, c, w);
    ServiceIsVdisktime(t, es, i);
    ServiceIsVdisktime(t, es, j);
    SpreadOfTwo(t.groups, j, i);
    SpreadOfTwo(After(t, es).groups, i, j);
  }

  // ---------------------------------------------------------------- real time

  lemma {:induction false} ScaleRounds(slice: nat, weight: nat)
    requires weight > 0
    ensures Scale(slice, weight) * weight <= slice * SCALE <= (Scale(slice, weight) + 1) * weight
  {
  }

  lemma {:induction false} TimeStep(x: nat, s: nat, slice: nat, k: nat, m: nat, weight: nat)
    requires x * weight <= slice * SCALE <= (x + 1) * weight
    requires s * weight <= k * SCALE <= (s + m) * weight
    ensures (x + s) * weight <= (slice + k) * SCALE <= (x + s + (1 + m)) * weight
  {
  }

  /** Scaled service is real time over weight, rounded down once per turn. */
  lemma {:induction false} ServiceIsTime(t: Tree, es: List<Event>, id: nat, weight: nat)
    requires Valid(t) && Weighty(t.groups, 1) && Stays(t, es, id) && weight == Find(t.groups, id).weight
    ensures Service(t, es, id) * weight <= ServedTime(t, es, id) * SCALE
    ensures ServedTime(t, es, id) * SCALE <= (Service(t, es, id) + Turns(t, es, id)) * weight
    decreases es
  {
    hide Apply, Scale, Valid;
    if es.Cons? {
      var n := Apply(t, es.head);
      ApplyValid(t, es.head);
      ApplyWeighty(t, es.head, 1);
      StepFind(t, es.head, id);
      ServiceIsTime(n, es.tail, id, weight);
      if Serves(t, es.head, id) {
        FindBounded(t.groups, id, 1, 0);
        ScaleRounds(es.head.slice, weight);
        TimeStep(Scale(es.head.slice, weight), Service(n, es.tail, id), es.head.slice, ServedTime(n, es.tail, id),
                 Turns(n, es.tail, id), weight);
      }
    }
  }

  /** Groups that stay get time in proportion to their weights: i's time over its weight exceeds j's by at most
      twice the bound and what those who came put themselves behind, plus one unit of rounding for each of i's
      turns. */
  lemma {:induction false} TimeIsProportional(t: Tree, es: List<Event>, b: nat, c: nat, w: nat, i: nat, j: nat)
    requires Valid(t) && Weighty(t.groups, w) && w > 0 && Weighty(t.groups, 1)
    requires Slices(es, c) && Coming(es, w)
    requires Spread(t.groups) <= b && Scale(c, w) <= b
    requires Stays(t, es, i) && Stays(t, es, j)
    ensures var wi, wj := Find(t.groups, i).weight, Find(t.groups, j).weight;
            ServedTime(t, es, i) * SCALE * wj <=
              ServedTime(t, es, j) * SCALE * wi + (2 * b + Delays(es) + Turns(t, es, i)) * wi * wj
  {
    var wi, wj := Find(t.groups, i).weight, Find(t.groups, j).weight;
    ServiceIsFair(t, es, b, c, w, i, j);
    ServiceIsTime(t, es, i, wi);
    ServiceIsTime(t, es, j, wj);
    Proportion(ServedTime(t, es, i) * SCALE, ServedTime(t, es, j) * SCALE, Service(t, es, i), Service(t, es, j),
               wi, wj, 2 * b + Delays(es), Turns(t, es, i));
  }

  lemma {:induction false} Proportion(ti: nat, tj: nat, si: nat, sj: nat, wi: nat, wj: nat, b: nat, n: nat)
    requires ti <= (si + n) * wi && sj * wj <= tj && si <= sj + b
    ensures ti * wj <= tj * wi + (b + n) * wi * wj
  {
  }
}
