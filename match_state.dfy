/**
 * The live state of a match (the `ActiveMatch` row) and the value view of
 * it that every revision's rules are written against.
 *
 * A team's cups are two label lists: `active`, the cups still on the
 * table, and `pending`, hits scored against the team that are removed
 * only when the team itself next shoots. The live count of a team is
 * `|active| - |pending|` and may go negative.
 */
module MatchState {
  import opened Wrappers
  import Catalog
  import CupLists

  datatype Team = T1 | T2
  {
    function Other(): Team
    {
      if this == T1 then T2 else T1
    }
  }

  /** `running`, `redemption_t1`, `redemption_t2`, `finished`. */
  datatype Status = Running | Redemption(team: Team) | Finished

  /** `squadre` (normal play) or `overtime`. */
  datatype Mode = Teams | Overtime

  /** One team's columns: cups, hits awaiting removal, counters and format. */
  datatype Side = Side(
    active: seq<string>,
    pending: seq<string>,
    pendingDamage: int,
    cupsTarget: int,
    formatTarget: string,
    formatChanged: bool)
  {
    /** Cups left once pending hits are counted as gone; negative after an overkill. */
    function Live(): int
    {
      |active| - |pending|
    }
  }

  /** The whole mutable part of a match, as a value. */
  datatype State = State(
    status: Status,
    mode: Mode,
    startTime: int,
    endTime: Option<int>,
    winner: Option<Team>,
    shotsLeft: int,
    hits: int,
    t1: Side,
    t2: Side)
  {
    function Of(t: Team): Side
    {
      if t == T1 then t1 else t2
    }

    function With(t: Team, side: Side): State
    {
      if t == T1 then this.(t1 := side) else this.(t2 := side)
    }

    function Live(t: Team): int
    {
      Of(t).Live()
    }

    predicate Redeeming(t: Team)
    {
      status == Redemption(t)
    }

    /** Both cup targets are set to the teams' live counts. */
    function Targeted(): State
    {
      this.(t1 := t1.(cupsTarget := Live(T1)), t2 := t2.(cupsTarget := Live(T2)))
    }

    /** `init_cup_state(match, team, format)`: the team's cups become the format's labels. */
    function InitCups(t: Team, format: string): State
    {
      With(t, Of(t).(active := Catalog.CupsFor(format)))
    }
  }

  /** The hits waiting against a side are taken off its cups and forgotten. */
  function Commit(side: Side): (r: Side)
    ensures forall c :: c in r.active <==> c in side.active && c !in side.pending
    ensures r.pending == [] && r.pendingDamage == 0
    ensures r.cupsTarget == side.cupsTarget && r.formatTarget == side.formatTarget
    ensures r.formatChanged == side.formatChanged
  {
    side.(active := CupLists.RemoveAll(side.active, side.pending), pending := [], pendingDamage := 0)
  }

  /** Shots granted to a team entering redemption: the opponent's live cups, but at least two when only one is left. */
  function RedemptionShots(opponentLive: int): int
  {
    if opponentLive == 1 then 2 else opponentLive
  }

  /** A freshly set-up match: column defaults, both teams on the pyramid. */
  function NewMatch(now: int): State
  {
    var side := Side(Catalog.CupsFor(Catalog.Pyramid), [], 0, 6, Catalog.Pyramid, false);
    State(Running, Teams, now, None, None, 0, 0, side, side)
  }

  /**
   * The `ActiveMatch` row. The six columns of each team (`tN_cup_state`,
   * `tN_pending_list`, `pending_damage_for_tN`, `cups_target_for_tN`,
   * `format_target_for_tN`, `tN_format_changed`) are kept together in one
   * `Side` field per team.
   */
  class ActiveMatch {
    const t1p1: Option<string>
    const t1p2: Option<string>
    const t2p1: Option<string>
    const t2p2: Option<string>

    var status: Status
    var mode: Mode
    var startTime: int
    var endTime: Option<int>
    var winningTeam: Option<Team>
    var redemptionShotsLeft: int
    var redemptionHits: int
    var t1: Side
    var t2: Side

    function Snap(): State
      reads this
    {
      State(status, mode, startTime, endTime, winningTeam, redemptionShotsLeft, redemptionHits, t1, t2)
    }

    /** Whether `player` sits on the given team. */
    predicate Plays(player: string, t: Team)
    {
      if t == T1 then Some(player) in [t1p1, t1p2] else Some(player) in [t2p1, t2p2]
    }

    /** Match creation at set-up, followed by `init_cup_state` on both teams with the pyramid. */
    constructor (t1p1: Option<string>, t1p2: Option<string>, t2p1: Option<string>, t2p2: Option<string>, now: int)
      ensures Snap() == NewMatch(now)
      ensures this.t1p1 == t1p1 && this.t1p2 == t1p2 && this.t2p1 == t2p1 && this.t2p2 == t2p2
    {
      this.t1p1, this.t1p2, this.t2p1, this.t2p2 := t1p1, t1p2, t2p1, t2p2;
      status, mode, startTime, endTime, winningTeam := Running, Teams, now, None, None;
      redemptionShotsLeft, redemptionHits := 0, 0;
      t1 := Side(Catalog.CupsFor(Catalog.Pyramid), [], 0, 6, Catalog.Pyramid, false);
      t2 := Side(Catalog.CupsFor(Catalog.Pyramid), [], 0, 6, Catalog.Pyramid, false);
    }

    // Per-team column writes (`setattr(match, f"{team}_...", value)`).

    method SetCups(t: Team, cups: seq<string>)
      modifies this
      ensures Snap() == old(Snap()).With(t, old(Snap()).Of(t).(active := cups))
    {
      if t == T1 { t1 := t1.(active := cups); } else { t2 := t2.(active := cups); }
    }

    method SetPending(t: Team, pending: seq<string>)
      modifies this
      ensures Snap() == old(Snap()).With(t, old(Snap()).Of(t).(pending := pending))
    {
      if t == T1 { t1 := t1.(pending := pending); } else { t2 := t2.(pending := pending); }
    }

    method SetPendingDamage(t: Team, n: int)
      modifies this
      ensures Snap() == old(Snap()).With(t, old(Snap()).Of(t).(pendingDamage := n))
    {
      if t == T1 { t1 := t1.(pendingDamage := n); } else { t2 := t2.(pendingDamage := n); }
    }

    method SetCupsTarget(t: Team, n: int)
      modifies this
      ensures Snap() == old(Snap()).With(t, old(Snap()).Of(t).(cupsTarget := n))
    {
      if t == T1 { t1 := t1.(cupsTarget := n); } else { t2 := t2.(cupsTarget := n); }
    }

    method SetFormatTarget(t: Team, format: string)
      modifies this
      ensures Snap() == old(Snap()).With(t, old(Snap()).Of(t).(formatTarget := format))
    {
      if t == T1 { t1 := t1.(formatTarget := format); } else { t2 := t2.(formatTarget := format); }
    }

    method SetFormatChanged(t: Team, changed: bool)
      modifies this
      ensures Snap() == old(Snap()).With(t, old(Snap()).Of(t).(formatChanged := changed))
    {
      if t == T1 { t1 := t1.(formatChanged := changed); } else { t2 := t2.(formatChanged := changed); }
    }
  }
}
