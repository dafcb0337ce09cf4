/** The footer's own statistics poller (components/layout/footer.tsx). Its
    `fetchStats` settles like a statistics refresh but never sets the loading
    flag back to true: only the initial state is loading. The statistics panel
    is drawn when not loading, with no error and with statistics. */
module Footer {
  import opened Wrappers
  import opened Statistics

  /** `!isLoading && !error && stats` */
  predicate PanelVisible(s: StatsState)
  {
    !s.isLoading && s.error == None && s.stats.Some?
  }

  /** After at least one fetch the panel shows exactly when the latest fetch
      succeeded; after a failure the stale statistics are still held but
      hidden behind the error message. */
  lemma PanelAfterFetches(replies: seq<Reply<SystemStats>>)
    requires replies != []
    ensures PanelVisible(AfterAll(Initial, replies)) <==> replies[|replies| - 1].Ok?
    ensures replies[|replies| - 1].Failed? ==>
      AfterAll(Initial, replies).error == Some(LoadError) &&
      AfterAll(Initial, replies).stats == LastSuccess(replies)
  {
    AfterRefreshes(Initial, replies);
  }

  /** `isLoading &&`: "Carregando estatísticas..." */
  predicate ShowsLoading(s: StatsState)
  {
    s.isLoading
  }

  /** `error &&`: the error message. */
  predicate ShowsError(s: StatsState)
  {
    s.error.Some?
  }

  /** Before the first answer only the loading line is drawn; after any run
      of fetches exactly one of the three parts of the footer is drawn. */
  lemma {:induction false} ExactlyOnePart(replies: seq<Reply<SystemStats>>)
    ensures var r := AfterAll(Initial, replies);
      && (ShowsLoading(r) <==> replies == [])
      && (PanelVisible(r) ==> !ShowsError(r) && !ShowsLoading(r))
      && (ShowsLoading(r) || PanelVisible(r) || ShowsError(r))
      && !(ShowsLoading(r) && ShowsError(r))
  {
    if replies != [] {
      AfterRefreshes(Initial, replies);
    }
  }

  /** A failure followed by a success shows the panel again with the new data. */
  lemma RecoveryAfterFailure(s: StatsState, e: HttpError, data: SystemStats)
    ensures PanelVisible(Settled(Settled(s, Failed(e)), Ok(data)))
    ensures !PanelVisible(Settled(s, Failed(e)))
  {
  }

  class FooterStats {
    var stats: Option<SystemStats>
    var isLoading: bool
    var error: Option<string>

    function State(): StatsState
      reads this
    {
      StatsState(stats, isLoading, error)
    }

    constructor ()
      ensures State() == Initial
    {
      stats := None;
      isLoading := true;
      error := None;
    }

    /** `fetchStats`, given the backend's answer; the first one runs on mount
      and the 10-second interval repeats it. */
    method FetchStats(reply: Reply<SystemStats>)
      modifies this
      ensures State() == Settled(old(State()), reply)
      ensures !isLoading
    {
      match reply {
        case Ok(data) =>
          stats := Some(data);
          error := None;
        case Failed(_) =>
          error := Some(LoadError);
      }
      isLoading := false;
    }
  }
}
