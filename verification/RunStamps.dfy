// The version stamp of a run against the content it runs. The handler of POST /v1/runs finds the
// scenario and creates the run in two calls on the store; scenarios are created and updated in
// between, and CreateRun reads the stamp anew unless it is handed a version. In Postgres that read,
// like the lookup, can fail: the scenario then counts as absent.
module RunStamps {
  import opened Prelude
  import opened Scenarios
  import opened MemoryStore

  // What the client asks for; a scenario in the request wins, and its id may still be given.
  datatype Ask = ByNumber(id: string, versionNumber: nat) | Current(id: string) | Inline(id: string)

  // source is history: the version whose content the handler holds, if it is a saved one.
  datatype Handler = Holding(ask: Ask, source: Option<VersionRecord>) | Refused | Made(ask: Ask, source: Option<VersionRecord>, stamp: (string, nat))

  datatype World = World(scenarios: map<string, ScenarioRecord>, versions: Versions, handlers: map<nat, Handler>)

  datatype Action =
    | Create(id: string, versionID: string, sc: Scenario)
    | Update(id: string, versionID: string, sc: Scenario)
    | Look(h: nat, ask: Ask, read: bool)
    | Make(h: nat, read: bool)

  const EMPTY := World(map[], map[], map[])

  function Found(w: World, ask: Ask): Handler {
    match ask
    case Inline(_) => Holding(ask, None)
    case Current(id) =>
      if id in w.scenarios && id in w.versions && |w.versions[id]| > 0
      then Holding(ask, Some(w.versions[id][|w.versions[id]| - 1])) else Refused
    case ByNumber(id, n) =>
      if id in w.versions && 1 <= n <= |w.versions[id]| then Holding(ask, Some(w.versions[id][n - 1])) else Refused
  }

  // Only a version asked for by number is handed to CreateRun.
  function RefOf(h: Handler): seq<VersionRecord>
    requires h.Holding?
  {
    if h.ask.ByNumber? && h.source.Some? then [h.source.value] else []
  }

  predicate Enabled(w: World, act: Action) {
    match act
    case Create(id, _, _) => id !in w.scenarios && id !in w.versions
    case Update(_, _, _) => true
    case Look(h, ask, _) => (ask.Inline? || ask.id != "") && (ask.ByNumber? ==> ask.versionNumber > 0)
    case Make(h, _) => h in w.handlers && w.handlers[h].Holding?
  }

  function Saved(w: World, id: string, versionID: string, sc: Scenario): World {
    w.(scenarios := w.scenarios[id := ScenarioRecord(sc, versionID, |SavedUnder(w.versions, id)| + 1)],
       versions := WithVersion(w.versions, id, versionID, sc))
  }

  function Next(w: World, act: Action): World
    requires Enabled(w, act)
  {
    match act
    case Create(id, versionID, sc) => Saved(w, id, versionID, sc)
    case Update(id, versionID, sc) => if id in w.scenarios then Saved(w, id, versionID, sc) else w
    case Look(h, ask, read) => w.(handlers := w.handlers[h := if read || ask.Inline? then Found(w, ask) else Refused])
    case Make(h, read) =>
      var x := w.handlers[h];
      w.(handlers := w.handlers[h := Made(x.ask, x.source, StampFor(if read then w.scenarios else map[], x.ask.id, RefOf(x)))])
  }

  ghost predicate Allowed(w: World, acts: seq<Action>)
    decreases |acts|
  {
    |acts| == 0 || (Enabled(w, acts[0]) && Allowed(Next(w, acts[0]), acts[1..]))
  }

  ghost function Exec(w: World, acts: seq<Action>): World
    requires Allowed(w, acts)
    decreases |acts|
  {
    if |acts| == 0 then w else Exec(Next(w, acts[0]), acts[1..])
  }

  // The stamp names the version whose content the run holds, and a run of no version has none.
  predicate Honest(h: Handler)
    requires h.Made?
  {
    h.stamp == if h.source.Some? then (h.source.value.id, h.source.value.versionNumber) else ("", 0)
  }

  // ----- what the steps in between change ------------------------------------

  ghost predicate StoreOk(w: World) {
    VersionsOk(w.scenarios, w.versions)
  }

  lemma NextOk(w: World, act: Action)
    requires StoreOk(w) && Enabled(w, act)
    ensures StoreOk(Next(w, act)) && Grows(w.versions, Next(w, act).versions)
  {
    hide VersionsOk, Grows, Found;
    UnchangedGrows(w.versions);
    match act
    case Create(id, versionID, sc) =>
      WithVersionOk(w.scenarios, w.versions, id, versionID, sc);
      WithVersionGrows(w.versions, id, versionID, sc);
    case Update(id, versionID, sc) =>
      WithVersionOk(w.scenarios, w.versions, id, versionID, sc);
      WithVersionGrows(w.versions, id, versionID, sc);
    case _ =>
  }

  predicate Touches(act: Action, h: nat) {
    (act.Look? || act.Make?) && act.h == h
  }

  predicate Saves(act: Action, id: string) {
    (act.Create? || act.Update?) && act.id == id
  }

  predicate Creates(act: Action, id: string) {
    act.Create? && act.id == id
  }

  // How often the scenario was saved.
  function SavedCount(w: World, id: string): nat {
    |SavedUnder(w.versions, id)|
  }

  lemma OneStep(w: World, act: Action, h: nat, id: string)
    requires StoreOk(w) && Enabled(w, act) && !Touches(act, h) && h in w.handlers
    ensures var v := Next(w, act);
            && h in v.handlers && v.handlers[h] == w.handlers[h]
            && (id in w.scenarios ==>
                  id in v.scenarios && SavedCount(v, id) == SavedCount(w, id) + if Saves(act, id) then 1 else 0)
            && (id !in w.scenarios ==> (id in v.scenarios <==> Creates(act, id)))
  {
    hide Found;
  }

  // Between a handler's two calls: what it holds stays, and its scenario has been saved again
  // exactly when a step saved it.
  lemma {:induction false} Between(w: World, acts: seq<Action>, h: nat, id: string)
    requires StoreOk(w) && Allowed(w, acts) && h in w.handlers
    requires forall act | act in acts :: !Touches(act, h)
    ensures var v := Exec(w, acts);
            && StoreOk(v)
            && h in v.handlers && v.handlers[h] == w.handlers[h]
            && (id in w.scenarios ==>
                  && id in v.scenarios && SavedCount(v, id) >= SavedCount(w, id)
                  && (SavedCount(v, id) == SavedCount(w, id) <==> forall act | act in acts :: !Saves(act, id))
                  && SavedUnder(w.versions, id) <= SavedUnder(v.versions, id))
            && (id !in w.scenarios ==> (id in v.scenarios <==> exists act :: act in acts && Creates(act, id)))
    decreases |acts|
  {
    hide VersionsOk, Next, Enabled, Touches, Saves, Creates;
    if |acts| > 0 {
      var first, rest := acts[0], acts[1..];
      assert acts == [first] + rest && first in acts;
      assert forall act | act in rest :: act in acts;
      OneStep(w, first, h, id);
      NextOk(w, first);
      Between(Next(w, first), rest, h, id);
    }
  }

  lemma {:induction false} ExecOk(w: World, acts: seq<Action>)
    requires StoreOk(w) && Allowed(w, acts)
    ensures StoreOk(Exec(w, acts)) && Grows(w.versions, Exec(w, acts).versions)
    decreases |acts|
  {
    hide VersionsOk, Next, Enabled;
    if |acts| > 0 {
      NextOk(w, acts[0]);
      ExecOk(Next(w, acts[0]), acts[1..]);
    }
  }

  lemma {:induction false} ExecPush(w: World, acts: seq<Action>, last: Action)
    requires Allowed(w, acts + [last])
    ensures Allowed(w, acts) && Enabled(Exec(w, acts), last)
    ensures Exec(w, acts + [last]) == Next(Exec(w, acts), last)
    decreases |acts|
  {
    hide Next, Enabled;
    if |acts| == 0 {
      assert acts + [last] == [last] && [last][1..] == [];
      assert Exec(w, [last]) == Exec(Next(w, last), []);
    } else {
      assert (acts + [last])[1..] == acts[1..] + [last];
      ExecPush(Next(w, acts[0]), acts[1..], last);
    }
  }

  // What a handler that can read the store finds: asked for a number, the saved version of that number
  // if there is one, and otherwise the one that the scenario points at.
  lemma LookFinds(w: World, h: nat, ask: Ask)
    requires StoreOk(w) && Enabled(w, Look(h, ask, true)) && !ask.Inline?
    ensures var x := Next(w, Look(h, ask, true)).handlers[h];
            var saved := SavedUnder(w.versions, ask.id);
            && (x.Refused? <==> if ask.ByNumber? then forall v | v in saved :: v.versionNumber != ask.versionNumber else ask.id !in w.scenarios)
            && (x.Holding? ==>
                  && x.ask == ask && x.source.Some? && x.source.value in saved
                  && (ask.ByNumber? ==> x.source.value.versionNumber == ask.versionNumber)
                  && (ask.Current? ==> ask.id in w.scenarios && x.source.value.versionNumber == w.scenarios[ask.id].currentVersionNumber))
            && !x.Made?
  {
    var saved := SavedUnder(w.versions, ask.id);
    if ask.ByNumber? && 1 <= ask.versionNumber <= |saved| {
      assert saved[ask.versionNumber - 1] in saved;
    }
  }

  // ----- when the stamp is honest --------------------------------------------

  // When the stamp is right: for a version asked for by number always, for the current one when the
  // scenario is not saved again in the meantime and CreateRun can read it, and for a scenario of
  // the request when it comes without the id of a saved scenario or CreateRun cannot read that one.
  ghost predicate StampedRightly(w: World, ask: Ask, between: seq<Action>, read: bool) {
    match ask
    case ByNumber(_, _) => true
    case Current(id) => read && forall act | act in between :: !Saves(act, id)
    case Inline(id) => !read || id == "" || (id !in w.scenarios && forall act | act in between :: !Creates(act, id))
  }

  lemma LookKeepsStore(w: World, h: nat, ask: Ask)
    requires Enabled(w, Look(h, ask, true))
    ensures var v := Next(w, Look(h, ask, true));
            v.scenarios == w.scenarios && v.versions == w.versions && h in v.handlers && v.handlers[h] == Found(w, ask)
  {
    hide Found;
  }

  lemma HonestIff(w: World, v: World, h: nat, ask: Ask, read: bool)
    requires StoreOk(w) && StoreOk(v) && Enabled(w, Look(h, ask, true)) && Found(w, ask).Holding?
    requires h in v.handlers && v.handlers[h] == Found(w, ask)
    requires ask.id in w.scenarios ==>
               ask.id in v.scenarios && SavedUnder(w.versions, ask.id) <= SavedUnder(v.versions, ask.id)
    ensures h in Next(v, Make(h, read)).handlers && Next(v, Make(h, read)).handlers[h].Made?
    ensures Honest(Next(v, Make(h, read)).handlers[h]) <==>
            match ask
            case ByNumber(_, _) => true
            case Current(id) => read && SavedCount(v, id) == SavedCount(w, id)
            case Inline(id) => !read || id == "" || id !in v.scenarios
  {
  }

  // Whatever other handlers do in between, the stamp of a run names the version whose content
  // the run holds exactly in these cases.
  lemma StampHonestIff(w: World, h: nat, ask: Ask, between: seq<Action>, read: bool)
    requires StoreOk(w) && Allowed(w, [Look(h, ask, true)] + (between + [Make(h, read)]))
    requires forall act | act in between :: !Touches(act, h)
    ensures var v := Exec(w, [Look(h, ask, true)] + (between + [Make(h, read)]));
            h in v.handlers && v.handlers[h].Made? && (Honest(v.handlers[h]) <==> StampedRightly(w, ask, between, read))
  {
    hide VersionsOk, Next, Enabled, Found, Honest, Touches, Saves, Creates;
    var acts := [Look(h, ask, true)] + (between + [Make(h, read)]);
    assert acts[1..] == between + [Make(h, read)];
    var w1 := Next(w, acts[0]);
    LookKeepsStore(w, h, ask);
    ExecPush(w1, between, Make(h, read));
    Between(w1, between, h, ask.id);
    var v := Exec(w1, between);
    MakesHeld(v, h, read);
    assert Found(w, ask).Holding?;
    FoundIsSaved(w, ask);
    HonestIff(w, v, h, ask, read);
    assert Exec(w, acts) == Next(v, Make(h, read));
  }

  lemma FoundIsSaved(w: World, ask: Ask)
    requires StoreOk(w) && Found(w, ask).Holding?
    ensures !ask.Inline? ==> ask.id in w.scenarios
  {
  }

  lemma MakesHeld(w: World, h: nat, read: bool)
    requires Enabled(w, Make(h, read))
    ensures h in w.handlers && w.handlers[h].Holding?
  {
  }

  // ----- two runs with a stamp of another version ----------------------------

  lemma ThreeSteps(w: World, a: Action, b: Action, c: Action)
    requires Enabled(w, a) && Enabled(Next(w, a), b) && Enabled(Next(Next(w, a), b), c)
    ensures Allowed(w, [a, b, c]) && Exec(w, [a, b, c]) == Next(Next(Next(w, a), b), c)
  {
    hide Next, Enabled;
    assert [a, b, c][1..] == [b, c] && [b, c][1..] == [c] && [c][1..] == [];
    var v := Next(Next(Next(w, a), b), c);
    assert Allowed(v, []) && Exec(v, []) == v;
    assert Exec(Next(Next(w, a), b), [c]) == v;
    assert Exec(Next(w, a), [b, c]) == v;
  }

  // A scenario updated between the two calls: the run holds version 1 and is stamped 2.
  lemma StaleContent(before: Scenario, after: Scenario) returns (acts: seq<Action>)
    ensures Allowed(EMPTY, acts)
    ensures var v := Exec(EMPTY, acts);
            0 in v.handlers && v.handlers[0] == Made(Current("s"), Some(VersionRecord("v1", "s", 1, before)), ("v2", 2))
  {
    var create, look, update, make := Create("s", "v1", before), Look(0, Current("s"), true), Update("s", "v2", after), Make(0, true);
    var w := Next(EMPTY, create);
    assert w.versions == map["s" := [VersionRecord("v1", "s", 1, before)]] by { FirstVersion(map[], "s", "v1", before); }
    ThreeSteps(w, look, update, make);
    acts := [create, look, update, make];
    assert acts[1..] == [look, update, make];
  }

  // A scenario in the request beside the id of a saved one: the run is stamped with the current
  // version of that scenario, whose content it does not hold.
  lemma StampOfAnother(saved: Scenario) returns (acts: seq<Action>)
    ensures Allowed(EMPTY, acts)
    ensures var v := Exec(EMPTY, acts); 0 in v.handlers && v.handlers[0] == Made(Inline("s"), None, ("v1", 1))
  {
    var create, look, make := Create("s", "v1", saved), Look(0, Inline("s"), true), Make(0, true);
    ThreeSteps(EMPTY, create, look, make);
    acts := [create, look, make];
  }

  // A run from a saved scenario without any stamp: CreateRun could not read the scenario.
  lemma UnstampedContent(saved: Scenario) returns (acts: seq<Action>)
    ensures Allowed(EMPTY, acts)
    ensures var v := Exec(EMPTY, acts);
            0 in v.handlers && v.handlers[0] == Made(Current("s"), Some(VersionRecord("v1", "s", 1, saved)), ("", 0))
  {
    var create, look, make := Create("s", "v1", saved), Look(0, Current("s"), true), Make(0, false);
    assert Next(EMPTY, create).versions == map["s" := [VersionRecord("v1", "s", 1, saved)]] by { FirstVersion(map[], "s", "v1", saved); }
    ThreeSteps(EMPTY, create, look, make);
    acts := [create, look, make];
  }
}
