/** The durable state: the three tables of the migrations, with the row updates of internal/db. */
module Store {
  import opened Wrappers
  import opened GoInt

  /** What became of a statement or a commit: done; failed without effect; or reported as an error to the
      caller although the database carried it out. */
  datatype Fate = Done | Failed | Uncertain

  datatype Player = Player(fingerprint: string, balance: int, lastCredit: Option<int>)

  /** rounds.state, in the order a round moves through it. */
  datatype Stage = StageBetting | StageFlying | StageCrashed | StageSettled

  datatype RoundRow = RoundRow(commitHash: string, crash: int, salt: string, stage: Stage)

  datatype Bet = Bet(round: int, player: int, amount: int, auto: Option<int>,
                     mult: Option<int>, payout: Option<int>)

  /** The tables with their id sequences and the database's date. The last two fields are history: who was
      granted a daily credit on which date, and the crash point and salt each round was created with. */
  datatype Store = Store(players: map<int, Player>, rounds: map<int, RoundRow>, bets: map<int, Bet>,
                         nextPlayer: int, nextRound: int, nextBet: int, today: int,
                         grants: seq<(int, int)>, drawn: map<int, (int, string)>)

  const EMPTY := Store(map[], map[], map[], 1, 1, 1, 0, [], map[])

  const STARTING_BALANCE := 2000
  const DAILY_CREDIT := 1000
  const PENDING := "pending"

  function Rank(stage: Stage): nat {
    match stage
    case StageBetting => 0
    case StageFlying => 1
    case StageCrashed => 2
    case StageSettled => 3
  }

  // ---------------------------------------------------------------- autocommitted statements

  /** UPDATE rounds SET state. */
  function MarkStage(s: Store, id: int, stage: Stage): Store {
    if id in s.rounds then s.(rounds := s.rounds[id := s.rounds[id].(stage := stage)]) else s
  }

  /** CreateRound; the id sequence moves on and the draw is remembered. */
  function InsertRound(s: Store, crash: int, salt: string): Store {
    s.(rounds := s.rounds[s.nextRound := RoundRow(PENDING, Int32(crash), salt, StageBetting)],
       drawn := s.drawn[s.nextRound := (crash, salt)],
       nextRound := s.nextRound + 1)
  }

  /** UPDATE rounds SET commit_hash. */
  function PublishHash(s: Store, id: int, hash: string): Store {
    if id in s.rounds then s.(rounds := s.rounds[id := s.rounds[id].(commitHash := hash)]) else s
  }

  /** CreatePlayer, once the UNIQUE constraint on the fingerprint has been checked. */
  function InsertPlayer(s: Store, fingerprint: string): Store {
    s.(players := s.players[s.nextPlayer := Player(fingerprint, STARTING_BALANCE, None)],
       nextPlayer := s.nextPlayer + 1)
  }

  predicate Known(players: map<int, Player>, fingerprint: string) {
    exists pid :: pid in players && players[pid].fingerprint == fingerprint
  }

  /** The WHERE clause of GrantDailyCredit. */
  predicate CreditDue(s: Store, pid: int) {
    pid in s.players && (s.players[pid].lastCredit.None? || s.players[pid].lastCredit.value < s.today)
  }

  /** GrantDailyCredit. */
  function GrantCredit(s: Store, pid: int): Store {
    if !CreditDue(s, pid) then s
    else
      var p := s.players[pid];
      s.(players := s.players[pid := p.(balance := p.balance + DAILY_CREDIT, lastCredit := Some(s.today))],
         grants := s.grants + [(pid, s.today)])
  }

  // ---------------------------------------------------------------- transactions

  /** The writes an open transaction has pending. */
  datatype Write =
    | Adjust(pid: int, delta: int)
    | InsertBet(id: int, bet: Bet)
    | SettleBet(id: int, mult: Option<int>, payout: Option<int>)

  /** What the pending writes add to a player's balance. */
  function Delta(ws: seq<Write>, pid: int): int {
    if ws == [] then 0
    else
      var last := ws[|ws| - 1];
      Delta(ws[..|ws| - 1], pid) + if last.Adjust? && last.pid == pid then last.delta else 0
  }

  function BetAfter(bets: map<int, Bet>, w: Write): map<int, Bet> {
    match w
    case Adjust(_, _) => bets
    case InsertBet(id, bet) => bets[id := bet]
    case SettleBet(id, mult, payout) =>
      if id in bets then bets[id := bets[id].(mult := mult, payout := payout)] else bets
  }

  /** The bets as the transaction itself sees them. */
  function BetsAfter(bets: map<int, Bet>, ws: seq<Write>): map<int, Bet> {
    if ws == [] then bets else BetAfter(BetsAfter(bets, ws[..|ws| - 1]), ws[|ws| - 1])
  }

  /** COMMIT: every pending write at once. */
  function CommitWrites(s: Store, ws: seq<Write>): Store {
    s.(players := map pid | pid in s.players ::
                    s.players[pid].(balance := s.players[pid].balance + Delta(ws, pid)),
       bets := BetsAfter(s.bets, ws))
  }

  /** UNIQUE (round_id, player_id) would refuse the row. */
  predicate BetExists(bets: map<int, Bet>, round: int, pid: int) {
    exists id :: id in bets && bets[id].round == round && bets[id].player == pid
  }
}
