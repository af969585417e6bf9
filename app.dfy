/**
 * The `App` component: which screen shows for the hook's state, which
 * dropped or selected file starts a load, and the numbers on the Overview tab.
 */
module App {
  import opened Wrappers
  import opened Decimal
  import opened DemoTypes
  import opened Clock
  import opened Players
  import opened Store

  /** The spinner, the upload screen (with the error line when there is one to show), or the dashboard. */
  datatype Screen = Spinner | UploadScreen(shownError: Option<string>) | Dashboard(record: DemoData)

  /**
   * `if (loading) … ; if (!data) … ; return …`: loading wins over everything;
   * without a record the upload screen, which shows the error only when it is
   * a non-empty string (`{error && …}`); otherwise the dashboard of the record.
   */
  function ScreenOf(s: LoadState): (v: Screen)
    ensures v.Spinner? <==> s.loading
    ensures v.UploadScreen? <==> !s.loading && s.data.None?
    ensures v.Dashboard? <==> !s.loading && s.data.Some?
    ensures v.Dashboard? ==> v.record == s.data.value
    ensures v.UploadScreen? ==> (v.shownError.Some? <==> s.error.Some? && s.error.value != "")
    ensures v.UploadScreen? && v.shownError.Some? ==> v.shownError == s.error
  {
    if s.loading then Spinner
    else if s.data.None? then UploadScreen(if s.error.Some? && s.error.value != "" then s.error else None)
    else Dashboard(s.data.value)
  }

  /** While a load runs the spinner shows; once the hook has settled it never does. */
  lemma SpinnerOnlyWhileLoading(s: LoadState, events: seq<Event>)
    ensures ScreenOf(Started(s)) == Spinner
    ensures ScreenOf(Run(events)) != Spinner
  {
  }

  /**
   * A failed load with no record to keep shows the upload screen with the
   * failure's text; a failed reload keeps showing the dashboard of the record it
   * had.
   */
  lemma ScreenAfterFailure(s: LoadState, t: Thrown)
    ensures s.data.None? ==>
      ScreenOf(Loaded(s, Threw(t))) == UploadScreen(if ErrorText(t) != "" then Some(ErrorText(t)) else None)
    ensures s.data.Some? ==> ScreenOf(Loaded(s, Threw(t))) == Dashboard(s.data.value)
  {
  }

  predicate EndsWith(s: string, suffix: string) {
    |suffix| <= |s| && s[|s| - |suffix|..] == suffix
  }

  /** `name.endsWith(suffix)` holds exactly when the name is something followed by the suffix. */
  lemma EndsWithIsSuffix(s: string, suffix: string)
    ensures EndsWith(s, suffix) <==> exists p :: s == p + suffix
  {
    if EndsWith(s, suffix) {
      assert s == s[..|s| - |suffix|] + suffix;
    }
    if exists p :: s == p + suffix {
      var p :| s == p + suffix;
      assert s[|s| - |suffix|..] == suffix;
    }
  }

  /** The file a drop hands to `parseDemo`: the first dropped file, if its name ends in `.dem` (case matters). */
  function DroppedFile(files: seq<File>): (f: Option<File>)
    ensures f.Some? <==> |files| > 0 && EndsWith(files[0].name, ".dem")
    ensures f.Some? ==> f.value == files[0]
  {
    if |files| > 0 && EndsWith(files[0].name, ".dem") then Some(files[0]) else None
  }

  /** The file the file picker hands to `parseDemo`: the first selected file, whatever its name. */
  function SelectedFile(files: seq<File>): (f: Option<File>)
    ensures f.Some? <==> |files| > 0
    ensures f.Some? ==> f.value == files[0]
  {
    if |files| > 0 then Some(files[0]) else None
  }

  /** `onDrop`: a dropped `.dem` file is loaded; anything else changes nothing. */
  method OnDrop(hook: DemoParser, files: seq<File>, parse: File -> Outcome)
    modifies hook
    ensures DroppedFile(files).Some? ==> hook.State() == Loaded(old(hook.State()), parse(files[0]))
    ensures DroppedFile(files).None? ==> hook.State() == old(hook.State())
  {
    var file := DroppedFile(files);
    if file.Some? {
      hook.ParseDemo(file.value, parse);
    }
  }

  /** `onFileSelect`: the first picked file is loaded, whatever its name. */
  method OnFileSelect(hook: DemoParser, files: seq<File>, parse: File -> Outcome)
    modifies hook
    ensures |files| > 0 ==> hook.State() == Loaded(old(hook.State()), parse(files[0]))
    ensures |files| == 0 ==> hook.State() == old(hook.State())
  {
    var file := SelectedFile(files);
    if file.Some? {
      hook.ParseDemo(file.value, parse);
    }
  }

  /** The Overview tab's values; the tick count is left out (it is locale-formatted). */
  datatype OverviewCard = OverviewCard(
    mapName: string, duration: string, players: nat,
    server: string, protocol: string, recorder: string, game: string)

  function Overview(data: DemoData): (card: OverviewCard)
    ensures card.duration == DurationText(data.header.duration)
    ensures ReadDuration(card.duration) == Some((data.header.duration / 60, data.header.duration % 60))
    ensures card.players == |data.users|
    ensures card.protocol == NatToString(data.header.protocol) && Value(card.protocol) == data.header.protocol
    ensures card.mapName == data.header.mapName && card.server == data.header.server
    ensures card.recorder == data.header.nick && card.game == data.header.game
  {
    ValueOfNatToString(data.header.protocol);
    OverviewCard(
      data.header.mapName, DurationText(data.header.duration), |data.users|,
      data.header.server, NatToString(data.header.protocol), data.header.nick, data.header.game)
  }

  /** The player count on the Overview tab is the number of cards on the Players tab. */
  lemma PlayerCountMatchesCards(data: DemoData)
    ensures Overview(data).players == |ByTeam(UserList(data.users))|
  {
    ByTeamPermutation(UserList(data.users));
  }
}
