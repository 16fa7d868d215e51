/** The deterministic parts of the mock data service
    (volley-sense/apps/api/app/services/mock_data.py): the seed derived from a game id, the
    per-player adjustment of the seed statistics, the CSV export and the default event
    definitions. The random draws are inputs: `generate_players` receives the modifier drawn
    for each player. */
module MockData {
  import opened Text

  datatype PlayerStat = PlayerStat(jersey: int, name: string, kills: int, digs: int, blocks: int, aces: int)

  /** `EventDefinition`; `createdAt` is the ISO text of the timestamp. */
  datatype EventDefinition = EventDefinition(id: string, name: string, template: string, threshold: real,
                                             enabled: bool, createdAt: string, version: string)

  const SeedPlayers: seq<PlayerStat> := [
    PlayerStat(7, "A. Ramos", 4, 6, 1, 2),
    PlayerStat(12, "K. Lin", 8, 3, 2, 1),
    PlayerStat(14, "J. Ortiz", 5, 5, 0, 0),
    PlayerStat(3, "S. Patel", 2, 7, 1, 0)
  ]

  /** `DEFAULT_DEFINITIONS`, each stamped with its own import-time clock reading. */
  function DefaultDefinitions(contactCreatedAt: string, injuryCreatedAt: string): (r: seq<EventDefinition>)
    ensures |r| == 2 && r[0].id == "event-contact" && r[1].id == "event-injury"
    ensures r[0].createdAt == contactCreatedAt && r[1].createdAt == injuryCreatedAt
  {
    [EventDefinition("event-contact", "Collision", "Contact", 0.7, true, contactCreatedAt, "v1"),
     EventDefinition("event-injury", "Hard Landing", "Injury Risk", 0.65, true, injuryCreatedAt, "v1")]
  }

  // ---------------------------------------------------------------- the seed

  /** `sum(ord(char) for char in game_id)`. */
  function Seed(gameId: string): nat
  {
    if gameId == [] then 0 else gameId[0] as nat + Seed(gameId[1..])
  }

  lemma {:induction false} SeedConcat(a: string, b: string)
    ensures Seed(a + b) == Seed(a) + Seed(b)
  {
    if a != [] {
      assert (a + b)[1..] == a[1..] + b;
      SeedConcat(a[1..], b);
    } else {
      assert a + b == b;
    }
  }

  /** The seed only depends on which characters occur how often: any rearrangement of a game
      id seeds the generator identically. */
  lemma {:induction false} SeedPermutation(a: string, b: string)
    requires multiset(a) == multiset(b)
    ensures Seed(a) == Seed(b)
    decreases |a|
  {
    if a == [] {
      assert |b| == |multiset(b)| == 0;
    } else {
      assert a[0] in multiset(b);
      var k :| 0 <= k < |b| && b[k] == a[0];
      var rest := b[..k] + b[k + 1..];
      MultisetRemoveAt(b, k);
      SeedRemoveAt(b, k);
      assert a == [a[0]] + a[1..];
      assert multiset(a[1..]) == multiset(a) - multiset{a[0]};
      SeedPermutation(a[1..], rest);
    }
  }

  /** Taking the `k`-th character out of `b` takes one occurrence out of its multiset. */
  lemma MultisetRemoveAt(b: string, k: nat)
    requires k < |b|
    ensures multiset(b[..k] + b[k + 1..]) == multiset(b) - multiset{b[k]}
  {
    assert b == b[..k] + ([b[k]] + b[k + 1..]);
  }

  /** Taking the `k`-th character out of `b` takes its code out of the seed. */
  lemma SeedRemoveAt(b: string, k: nat)
    requires k < |b|
    ensures Seed(b) == b[k] as nat + Seed(b[..k] + b[k + 1..])
  {
    var front, back := b[..k], b[k + 1..];
    assert b == front + ([b[k]] + back);
    SeedConcat(front, [b[k]] + back);
    assert ([b[k]] + back)[1..] == back;
    SeedConcat(front, back);
  }

  // ---------------------------------------------------------------- players

  /** One player's statistics shifted by the modifier `m` (blocks by `m // 2`, aces by
      `m // 3`), none below zero. Python's `//` floors; for the positive divisors here Dafny's
      `/` agrees with it. */
  function Adjusted(p: PlayerStat, m: int): (r: PlayerStat)
    ensures r.jersey == p.jersey && r.name == p.name
    ensures r.kills >= 0 && r.digs >= 0 && r.blocks >= 0 && r.aces >= 0
  {
    PlayerStat(p.jersey, p.name, Clamp(p.kills + m), Clamp(p.digs + m), Clamp(p.blocks + m / 2), Clamp(p.aces + m / 3))
  }

  /** `max(0, x)`. */
  function Clamp(x: int): (r: int)
    ensures r >= 0 && r >= x && (r == x || r == 0)
  {
    if x > 0 then x else 0
  }

  /** For the modifiers `randint(-1, 2)` draws, the shifts are: kills and digs by `m`, blocks
      by -1, 0, 0, 1 and aces by -1, 0, 0, 0; a non-negative statistic that the shift keeps
      non-negative moves by exactly the shift. */
  lemma AdjustmentTable(p: PlayerStat, m: int)
    requires -1 <= m <= 2
    ensures m / 2 == (if m == -1 then -1 else if m == 2 then 1 else 0)
    ensures m / 3 == (if m == -1 then -1 else 0)
    ensures p.kills + m >= 0 ==> Adjusted(p, m).kills == p.kills + m
    ensures p.digs + m >= 0 ==> Adjusted(p, m).digs == p.digs + m
    ensures p.blocks + m / 2 >= 0 ==> Adjusted(p, m).blocks == p.blocks + m / 2
    ensures p.aces + m / 3 >= 0 ==> Adjusted(p, m).aces == p.aces + m / 3
  {
  }

  /** `generate_players`, with `modifiers[i]` the draw for the `i`-th player. */
  method AdjustPlayers(players: seq<PlayerStat>, modifiers: seq<int>) returns (r: seq<PlayerStat>)
    requires |modifiers| == |players|
    ensures |r| == |players|
    ensures forall i :: 0 <= i < |players| ==> r[i] == Adjusted(players[i], modifiers[i])
  {
    r := [];
    var i := 0;
    while i < |players|
      invariant 0 <= i <= |players| && |r| == i
      invariant forall k :: 0 <= k < i ==> r[k] == Adjusted(players[k], modifiers[k])
    {
      var player := players[i];
      var modifier := modifiers[i];
      r := r + [PlayerStat(player.jersey, player.name, Clamp(player.kills + modifier), Clamp(player.digs + modifier),
                           Clamp(player.blocks + modifier / 2), Clamp(player.aces + modifier / 3))];
      i := i + 1;
    }
  }

  /** `generate_players`: the seed players in order, each adjusted by its draw. */
  method GeneratePlayers(modifiers: seq<int>) returns (r: seq<PlayerStat>)
    requires |modifiers| == |SeedPlayers|
    ensures |r| == 4
    ensures forall i :: 0 <= i < 4 ==> r[i].jersey == SeedPlayers[i].jersey && r[i].name == SeedPlayers[i].name
    ensures forall i :: 0 <= i < 4 ==> r[i].kills >= 0 && r[i].digs >= 0 && r[i].blocks >= 0 && r[i].aces >= 0
    ensures forall i :: 0 <= i < 4 ==> r[i] == Adjusted(SeedPlayers[i], modifiers[i])
  {
    r := AdjustPlayers(SeedPlayers, modifiers);
  }

  // ---------------------------------------------------------------- CSV

  const CsvHeader := "jersey,name,kills,digs,blocks,aces"

  /** One row: the six fields joined by commas. */
  function CsvRow(p: PlayerStat): string
  {
    Join(",", [IntToString(p.jersey), p.name, IntToString(p.kills), IntToString(p.digs), IntToString(p.blocks),
               IntToString(p.aces)])
  }

  /** The rows `build_csv` collects: the header, then one row per player. */
  function CsvRows(players: seq<PlayerStat>): (rows: seq<string>)
    ensures |rows| == |players| + 1 && rows[0] == CsvHeader
    ensures forall i :: 0 <= i < |players| ==> rows[i + 1] == CsvRow(players[i])
  {
    [CsvHeader] + seq(|players|, i requires 0 <= i < |players| => CsvRow(players[i]))
  }

  /** `build_csv`. */
  method BuildCsv(players: seq<PlayerStat>) returns (csv: string)
    ensures csv == Join("\n", CsvRows(players))
  {
    var rows := [CsvHeader];
    var i := 0;
    while i < |players|
      invariant 0 <= i <= |players|
      invariant rows == [CsvHeader] + seq(i, k requires 0 <= k < i => CsvRow(players[k]))
    {
      var player := players[i];
      rows := rows + [Join(",", [IntToString(player.jersey), player.name, IntToString(player.kills),
                                 IntToString(player.digs), IntToString(player.blocks), IntToString(player.aces)])];
      i := i + 1;
    }
    csv := Join("\n", rows);
  }

  lemma {:induction false} JoinNoChar(sep: string, parts: seq<string>, c: char)
    requires c !in sep && forall i :: 0 <= i < |parts| ==> c !in parts[i]
    ensures c !in Join(sep, parts)
  {
    if |parts| > 1 {
      JoinNoChar(sep, parts[1..], c);
    }
  }

  /** A row has no line break when the name has none. */
  lemma RowHasNoNewline(p: PlayerStat)
    requires '\n' !in p.name
    ensures '\n' !in CsvRow(p)
  {
    var parts := [IntToString(p.jersey), p.name, IntToString(p.kills), IntToString(p.digs), IntToString(p.blocks),
                  IntToString(p.aces)];
    JoinNoChar(",", parts, '\n');
  }

  /** A row is never empty: it starts with the jersey number. */
  lemma RowNotEmpty(p: PlayerStat)
    ensures CsvRow(p) != ""
  {
    var parts := [IntToString(p.jersey), p.name, IntToString(p.kills), IntToString(p.digs), IntToString(p.blocks),
                  IntToString(p.aces)];
    assert Join(",", parts) == parts[0] + "," + Join(",", parts[1..]);
  }

  lemma RowsHaveNoNewline(players: seq<PlayerStat>)
    requires forall i :: 0 <= i < |players| ==> '\n' !in players[i].name
    ensures forall i :: 0 <= i < |CsvRows(players)| ==> '\n' !in CsvRows(players)[i]
  {
    var rows := CsvRows(players);
    forall i | 0 <= i < |rows|
      ensures '\n' !in rows[i]
    {
      if i > 0 {
        RowHasNoNewline(players[i - 1]);
      }
    }
  }

  /** Read back line by line, the export is the header followed by one row per player: there
      are `|players| + 1` lines and the last one is not empty (no trailing line break), as
      long as no name holds a line break. */
  lemma CsvLines(players: seq<PlayerStat>)
    requires forall i :: 0 <= i < |players| ==> '\n' !in players[i].name
    ensures Split(Join("\n", CsvRows(players)), '\n') == CsvRows(players)
    ensures |Split(Join("\n", CsvRows(players)), '\n')| == |players| + 1
    ensures Split(Join("\n", CsvRows(players)), '\n')[|players|] != ""
  {
    RowsHaveNoNewline(players);
    SplitJoin(CsvRows(players), '\n');
    if |players| > 0 {
      RowNotEmpty(players[|players| - 1]);
    }
  }
}
