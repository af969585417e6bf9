/**
 * The Chat tab: each message with its time, sender, text, and the kind label
 * `msg.kind.replace('TF_Chat_', '')`, which drops the first occurrence of
 * the prefix.
 */
module Chat {
  import opened Wrappers
  import opened Decimal
  import opened DemoTypes
  import opened Clock

  const KindPrefix := "TF_Chat_"

  predicate OccursAt(s: string, pat: string, j: int) {
    0 <= j && j + |pat| <= |s| && s[j..j + |pat|] == pat
  }

  /** The first position at or after `from` where `pat` occurs in `s`. */
  function IndexFrom(s: string, pat: string, from: nat): (r: Option<nat>)
    ensures r.Some? ==> from <= r.value && OccursAt(s, pat, r.value)
    ensures forall j :: from <= j && (r.None? || j < r.value) ==> !OccursAt(s, pat, j)
    decreases |s| - from
  {
    if from + |pat| > |s| then None
    else if s[from..from + |pat|] == pat then Some(from)
    else IndexFrom(s, pat, from + 1)
  }

  /** The first position where `pat` occurs in `s`, if any: `s.indexOf(pat)`. */
  function IndexOf(s: string, pat: string): (r: Option<nat>)
    ensures r.Some? ==> OccursAt(s, pat, r.value)
    ensures forall j :: 0 <= j && (r.None? || j < r.value) ==> !OccursAt(s, pat, j)
  {
    IndexFrom(s, pat, 0)
  }

  /** `kind.replace('TF_Chat_', '')`: the kind with its first `TF_Chat_` cut out, or unchanged without one. */
  function KindLabel(kind: string): (shown: string)
    ensures IndexOf(kind, KindPrefix).None? ==> shown == kind
    ensures IndexOf(kind, KindPrefix).Some? ==> |shown| == |kind| - |KindPrefix|
  {
    match IndexOf(kind, KindPrefix)
    case None => kind
    case Some(i) => kind[..i] + kind[i + |KindPrefix|..]
  }

  /** Putting the prefix back where it was cut out gives the kind again. */
  lemma KindLabelRestores(kind: string)
    requires IndexOf(kind, KindPrefix).Some?
    ensures var i := IndexOf(kind, KindPrefix).value;
      i <= |KindLabel(kind)| && KindLabel(kind)[..i] + KindPrefix + KindLabel(kind)[i..] == kind
  {
    var i := IndexOf(kind, KindPrefix).value;
    var shown := KindLabel(kind);
    assert shown[..i] == kind[..i];
    assert shown[i..] == kind[i + |KindPrefix|..];
    assert kind == kind[..i] + kind[i..i + |KindPrefix|] + kind[i + |KindPrefix|..];
  }

  /** A kind that starts with the prefix is labelled by what follows it. */
  lemma KindLabelOfPrefixed(rest: string)
    ensures KindLabel(KindPrefix + rest) == rest
  {
  }

  /** One line of the chat log. */
  datatype ChatLine = ChatLine(time: string, from: string, kindLabel: string, text: string)

  function LineOf(data: DemoData, msg: ChatMessage): (line: ChatLine)
    ensures line.from == msg.from && line.text == msg.text
    ensures line.kindLabel == KindLabel(msg.kind)
    ensures line.time == FormatTick(msg.tick, Some(data.intervalPerTick))
  {
    ChatLine(FormatTick(msg.tick, Some(data.intervalPerTick)), msg.from, KindLabel(msg.kind), msg.text)
  }

  /** The log: every message, in record order. */
  function Lines(data: DemoData): (lines: seq<ChatLine>)
    ensures |lines| == |data.chat|
    ensures forall i :: 0 <= i < |lines| ==>
      && lines[i].from == data.chat[i].from && lines[i].text == data.chat[i].text
      && lines[i].kindLabel == KindLabel(data.chat[i].kind)
      && lines[i].time == FormatTick(data.chat[i].tick, Some(data.intervalPerTick))
  {
    seq(|data.chat|, i requires 0 <= i < |data.chat| => LineOf(data, data.chat[i]))
  }

  /** The `${data.chat.length} messages` badge. */
  function CountBadge(data: DemoData): (badge: string)
    ensures var n := NatToString(|data.chat|);
      |n| <= |badge| && badge[..|n|] == n && Value(badge[..|n|]) == |Lines(data)|
    ensures badge[|NatToString(|data.chat|)|..] == " messages"
  {
    ValueOfNatToString(|data.chat|);
    var n := NatToString(|data.chat|);
    var badge := n + " messages";
    assert badge[..|n|] == n;
    badge
  }
}
