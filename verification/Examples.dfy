/** A small economy from which concrete decisions are shown: two planets at the start of a run. */
module Examples {
  import opened Domain
  import opened Stations
  import opened Counterparties
  import opened Memory
  import opened Engine
  import opened EngineInvariant
  import opened EngineRuns

  const US: StationId := StationId("P01")
  const THEM: StationId := StationId("P02")

  /** A single open offer and three commands a tick. */
  function Terms(): Rules { Rules(100, 100, 1, 1, 8, 5, 3, 100, 1) }

  function Ours(stock: Bundle): Station { Founded(Water, stock, 0, Bundle(1, 1, 1), 100) }

  function Theirs(): Station { Founded(Food, Bundle(30, 30, 30), 0, Bundle(1, 1, 1), 100) }

  /** The economy as it is built, with our founding stock given. */
  function Start(stock: Bundle): World {
    World("run", Terms(), [US, THEM], map[US := Ours(stock), THEM := Theirs()], 0, 0, [], [], [], 0, map[])
  }

  function Beginnings(stock: Bundle): Founding {
    Founding(map[US := stock, THEM := Theirs().inventory], map[US := 100, THEM := 100])
  }

  lemma StartIsFresh(stock: Bundle)
    ensures Fresh(Start(stock), Beginnings(stock)) && Sound(Start(stock))
  {
    assert US.name != THEM.name by { assert US.name[2] != THEM.name[2]; }
    var w := Start(stock);
    assert w.roster[0] == US && w.roster[1] == THEM;
  }

  /** The run in which the other planet's command `a` comes first. */
  ghost function AfterTheirs(stock: Bundle, a: Action): World { Run(Start(stock), [Command(THEM, a)]) }

  lemma AfterTheirsIs(stock: Bundle, a: Action)
    ensures Sound(Start(stock)) && THEM in Start(stock).stations
    ensures AfterTheirs(stock, a) == Execute(Start(stock), THEM, a).0
    ensures Inv(AfterTheirs(stock, a), Beginnings(stock))
  {
    StartIsFresh(stock);
    FreshIsKept(Start(stock), Beginnings(stock));
    RunKeeps(Start(stock), Beginnings(stock), [Command(THEM, a)]);
    assert [Command(THEM, a)][..0] == [];
    hide Inv, Fresh, Execute;
    assert Run(Start(stock), []) == Start(stock);
  }

  /** A memory that has observed nothing. */
  function Blank(): Notes { Notes(Model(map[], {}), [], [], 0, map[], Bundle.Zero(), {}, -1) }
}
