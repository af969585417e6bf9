/**
 * The Killfeed tab: the first 100 deaths in record order, each with its time,
 * its killer and victim looked up by id (an id missing from the user table
 * shows as "Unknown" of team 'other'), and a footer when deaths were left out.
 */
module Killfeed {
  import opened Wrappers
  import opened Decimal
  import opened DemoTypes
  import opened Clock
  import opened Players

  /** How many deaths the table shows at most. */
  const WindowSize: nat := 100

  /** A killer or victim: a user of the record, or the `{ name: 'Unknown', team: 'other' }` stand-in. */
  datatype Party = Known(user: User) | Placeholder {
    function Name(): string {
      match this
      case Known(u) => u.name
      case Placeholder => "Unknown"
    }

    function TeamOf(): Team {
      match this
      case Known(u) => u.team
      case Placeholder => Other
    }
  }

  /** `data.users[id] || { name: 'Unknown', team: 'other' }`. */
  function Resolve(users: map<nat, User>, id: int): (p: Party)
    ensures p.Known? <==> id >= 0 && id in users
    ensures p.Known? ==> p.user == users[id]
    ensures p.Placeholder? ==> p.Name() == "Unknown" && p.TeamOf() == Other && TeamColour(p.TeamOf()) == Neutral
  {
    if id >= 0 && id in users then Known(users[id]) else Placeholder
  }

  /** `data.deaths.slice(0, 100)`: the first min(100, n) deaths, in record order. */
  function Window(deaths: seq<DeathEvent>): (w: seq<DeathEvent>)
    ensures |w| == if |deaths| <= WindowSize then |deaths| else WindowSize
    ensures forall i :: 0 <= i < |w| ==> w[i] == deaths[i]
  {
    if |deaths| <= WindowSize then deaths else deaths[..WindowSize]
  }

  /** The "Showing first 100 of N events" line, present only when the record has more than 100 deaths. */
  function Footer(deaths: seq<DeathEvent>): (f: Option<string>)
    ensures f.Some? <==> |deaths| > WindowSize
  {
    if |deaths| > WindowSize then Some("Showing first 100 of " + NatToString(|deaths|) + " events") else None
  }

  /** The footer appears exactly when the table leaves deaths out, and the count it names is the number of deaths. */
  lemma FooterWhenCut(deaths: seq<DeathEvent>)
    ensures Footer(deaths).Some? <==> |Window(deaths)| < |deaths|
    ensures Footer(deaths).Some? ==>
      var text := Footer(deaths).value;
      var n := NatToString(|deaths|);
      && text[..21] == "Showing first 100 of "
      && text[21..|text| - 7] == n
      && Value(text[21..|text| - 7]) == |deaths|
      && text[|text| - 7..] == " events"
  {
    if |deaths| > WindowSize {
      ValueOfNatToString(|deaths|);
      var n := NatToString(|deaths|);
      var text := "Showing first 100 of " + n + " events";
      assert text[..21] == "Showing first 100 of ";
      assert text[21..|text| - 7] == n;
    }
  }

  /** One table row: time, killer, victim, weapon; the names are coloured by `TeamColour` of their team. */
  datatype KillRow = KillRow(time: string, killer: Party, victim: Party, weapon: string)

  function RowOf(data: DemoData, death: DeathEvent): (row: KillRow)
    ensures row.killer.Known? <==> death.killer >= 0 && death.killer in data.users
    ensures row.killer.Known? ==> row.killer.user == data.users[death.killer]
    ensures row.victim.Known? <==> death.victim >= 0 && death.victim in data.users
    ensures row.victim.Known? ==> row.victim.user == data.users[death.victim]
    ensures row.time == FormatTick(death.tick, Some(data.intervalPerTick))
    ensures row.weapon == death.weapon
  {
    KillRow(
      FormatTick(death.tick, Some(data.intervalPerTick)),
      Resolve(data.users, death.killer),
      Resolve(data.users, death.victim),
      death.weapon)
  }

  /** The rows of the table: one per death of the window, in order. */
  function Rows(data: DemoData): (rows: seq<KillRow>)
    ensures |rows| == |Window(data.deaths)|
    ensures forall i :: 0 <= i < |rows| ==>
      && rows[i].weapon == data.deaths[i].weapon
      && (rows[i].killer.Known? <==> data.deaths[i].killer >= 0 && data.deaths[i].killer in data.users)
      && (rows[i].victim.Known? <==> data.deaths[i].victim >= 0 && data.deaths[i].victim in data.users)
      && rows[i].killer == Resolve(data.users, data.deaths[i].killer)
      && rows[i].victim == Resolve(data.users, data.deaths[i].victim)
      && rows[i].time == FormatTick(data.deaths[i].tick, Some(data.intervalPerTick))
  {
    var w := Window(data.deaths);
    seq(|w|, i requires 0 <= i < |w| => RowOf(data, w[i]))
  }
}
