/**
 * The parsed demo record as the views receive it. The external parser
 * produces it and nothing in the model changes it after a load. Real-valued
 * fields are carried in a form that keeps the arithmetic the views do on them
 * exact: the header duration as whole seconds, and the seconds-per-tick
 * interval as a non-negative fraction.
 */
module DemoTypes {
  import opened Wrappers

  type Pos = n: nat | n > 0 witness 1

  /** Seconds per tick as the fraction num/den. An interval of 0 has num == 0. */
  datatype Rate = Rate(num: nat, den: Pos)

  datatype Team = Red | Blue | Other

  /** One entry of a user's per-class counter record: the class id (the parsed key) and its count. */
  datatype ClassCount = ClassCount(classId: int, count: int)

  datatype User = User(classes: seq<ClassCount>, name: string, userId: nat, steamId: string, team: Team)

  datatype DeathEvent = DeathEvent(weapon: string, victim: int, assister: Option<int>, killer: int, tick: nat)

  datatype ChatMessage = ChatMessage(kind: string, from: string, text: string, tick: nat)

  /** `duration` is the parser's duration in seconds rounded down to a whole second; `mapName` is the map. */
  datatype Header = Header(
    demoType: string, version: nat, protocol: nat, server: string, nick: string,
    mapName: string, game: string, duration: nat, ticks: nat, frames: nat, signon: nat)

  datatype Winner = RedWins | BlueWins

  /** `length` is the round length in seconds rounded down to a whole second. */
  datatype Round = Round(winner: Winner, length: nat, endTick: nat)

  /** `users` is keyed by user id, as the record's JSON object is keyed by the id's decimal text. */
  datatype DemoData = DemoData(
    header: Header, chat: seq<ChatMessage>, users: map<nat, User>, deaths: seq<DeathEvent>,
    rounds: seq<Round>, startTick: nat, intervalPerTick: Rate)
}
