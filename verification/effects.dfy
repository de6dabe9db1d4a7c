/** The observable effects of one run of the navigation guard, in the order
    they happen, and the tally that sorts a trace by kind of effect. */
module Effects {
  import opened Wrappers
  import opened Locations

  /** A role identifier such as `admin` or `editor`. */
  type Role = string

  /** One entry of the route table the store derives from the roles. The
      guard only hands it to the router, so the model tells entries apart and
      nothing more. */
  datatype RouteConfig = RouteConfig(id: string)

  /** The store actions the guard dispatches. */
  datatype Action =
    | GetInfo                            // store.dispatch('user/getInfo')
    | GenerateRoutes(roles: seq<Role>)   // store.dispatch('permission/generateRoutes', roles)
    | ResetToken                         // store.dispatch('user/resetToken')
  {
    /** The action's name as registered in the store. */
    function Name(): string {
      match this
      case GetInfo => "user/getInfo"
      case GenerateRoutes(_) => "permission/generateRoutes"
      case ResetToken => "user/resetToken"
    }
  }

  /** The argument the guard passes to its `next` continuation. */
  datatype NextArg =
    | Proceed               // next()
    | ToPath(path: string)  // next({ path })
    | ToUrl(url: string)    // next(`...`)
    | Replace(to: Location) // next({ ...to, replace: true })
  {
    /** A redirect to a different location, which aborts the current navigation. */
    predicate Redirects() {
      ToPath? || ToUrl?
    }
  }

  /** One observable step of a guard run. */
  datatype Effect =
    | ProgressStart                        // NProgress.start()
    | ProgressDone                         // NProgress.done()
    | Dispatch(action: Action)             // await store.dispatch(...)
    | AddRoutes(routes: seq<RouteConfig>)  // router.addRoutes(...)
    | ShowError                            // Message.error(...)
    | Next(arg: NextArg)                   // next(...)

  /** A trace sorted by kind of effect: the `next` arguments, the dispatched
      actions and the registered tables in trace order, and how often the
      progress bar was started and stopped and an error was shown. */
  datatype Tally = Tally(nexts: seq<NextArg>, actions: seq<Action>, tables: seq<seq<RouteConfig>>,
                         starts: nat, dones: nat, errors: nat)
  {
    /** How many effects this tally accounts for. */
    function Size(): nat {
      |nexts| + |actions| + |tables| + starts + dones + errors
    }
  }

  const Nothing := Tally([], [], [], 0, 0, 0)

  /** Tally `k` with effect `e` added at the end. */
  function Note(k: Tally, e: Effect): Tally {
    match e
    case ProgressStart => k.(starts := k.starts + 1)
    case ProgressDone => k.(dones := k.dones + 1)
    case Dispatch(a) => k.(actions := k.actions + [a])
    case AddRoutes(rs) => k.(tables := k.tables + [rs])
    case ShowError => k.(errors := k.errors + 1)
    case Next(arg) => k.(nexts := k.nexts + [arg])
  }

  /** The tally of trace `a` followed by trace `b`, from the tallies of each. */
  function Join(a: Tally, b: Tally): Tally {
    Tally(a.nexts + b.nexts, a.actions + b.actions, a.tables + b.tables,
          a.starts + b.starts, a.dones + b.dones, a.errors + b.errors)
  }

  /** The tally of a whole trace. */
  function Count(t: seq<Effect>): Tally
    decreases |t|
  {
    if t == [] then Nothing else Note(Count(t[..|t| - 1]), t[|t| - 1])
  }

  /** Tallying the effect `e` performed after trace `t`. */
  lemma Snoc(t: seq<Effect>, e: Effect)
    ensures Count(t + [e]) == Note(Count(t), e)
  {
    assert (t + [e])[..|t|] == t;
  }

  /** Tallying a trace made of the one effect `e`. */
  lemma One(e: Effect)
    ensures Count([e]) == Note(Nothing, e)
  {
    assert [e][..0] == [];
  }

  /** Adding an effect to the second of two joined tallies adds it to the join. */
  lemma JoinNote(x: Tally, y: Tally, e: Effect)
    ensures Join(x, Note(y, e)) == Note(Join(x, y), e)
  {
    match e {
      case Dispatch(a) => assert x.actions + (y.actions + [a]) == (x.actions + y.actions) + [a];
      case AddRoutes(rs) => assert x.tables + (y.tables + [rs]) == (x.tables + y.tables) + [rs];
      case Next(arg) => assert x.nexts + (y.nexts + [arg]) == (x.nexts + y.nexts) + [arg];
      case _ =>
    }
  }

  /** Tallying distributes over concatenation of traces. */
  lemma {:induction false} CountAppend(a: seq<Effect>, b: seq<Effect>)
    decreases |b|
    ensures Count(a + b) == Join(Count(a), Count(b))
  {
    if b == [] {
      assert a + b == a;
      assert Count(b) == Nothing;
    } else {
      var b' := b[..|b| - 1];
      var e := b[|b| - 1];
      assert b == b' + [e];
      assert a + b == (a + b') + [e];
      calc {
        Count(a + b);
        { Snoc(a + b', e); }
        Note(Count(a + b'), e);
        { CountAppend(a, b'); }
        Note(Join(Count(a), Count(b')), e);
        { JoinNote(Count(a), Count(b'), e); }
        Join(Count(a), Note(Count(b'), e));
        { Snoc(b', e); }
        Join(Count(a), Count(b));
      }
    }
  }

  /** Every effect of a trace lands in exactly one place of its tally. */
  lemma {:induction false} CountAccountsForAll(t: seq<Effect>)
    decreases |t|
    ensures Count(t).Size() == |t|
  {
    if t != [] {
      CountAccountsForAll(t[..|t| - 1]);
    }
  }

  /** The arguments of every `next` call, in order. */
  function NextCalls(t: seq<Effect>): seq<NextArg> { Count(t).nexts }

  /** The store actions dispatched, in order. */
  function Dispatched(t: seq<Effect>): seq<Action> { Count(t).actions }

  /** The route tables handed to the router, in order. */
  function Registered(t: seq<Effect>): seq<seq<RouteConfig>> { Count(t).tables }

  /** How often the progress bar was started. */
  function Starts(t: seq<Effect>): nat { Count(t).starts }

  /** How often the progress bar was stopped. */
  function Dones(t: seq<Effect>): nat { Count(t).dones }

  /** How often an error message was shown. */
  function Errors(t: seq<Effect>): nat { Count(t).errors }
}
