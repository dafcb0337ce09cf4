/** The statistics shown in the footer (contexts/StatisticsContext.tsx): the
    last statistics received, a loading flag and an error message. A refresh
    asks the backend; its answer is an input. A failed refresh keeps the old
    statistics (stale-while-revalidate) and records the error. */
module Statistics {
  import opened Wrappers

  /** `SystemStats`; the amounts are kept as plain numbers. */
  datatype SystemStats = SystemStats(
    totalNotas: int, notasPendentes: int, notasPagas: int,
    valorTotalNotas: int, valorTotalPendente: int, valorTotalPago: int,
    valorMedioPorNota: int, totalEmpresas: int)

  const LoadError: string := "Falha ao carregar estat\U{00ED}sticas"

  datatype StatsState = StatsState(stats: Option<SystemStats>, isLoading: bool, error: Option<string>)

  /** `useState(null)`, `useState(true)`, `useState(null)`. */
  const Initial: StatsState := StatsState(None, true, None)

  /** The state once an answer has arrived (the `try`/`catch`/`finally` after
      the `await`): new statistics and no error on success, the old
      statistics and the error message on failure, and not loading. */
  function Settled(s: StatsState, reply: Reply<SystemStats>): (r: StatsState)
    ensures !r.isLoading
    ensures reply.Ok? ==> r.stats == Some(reply.data) && r.error == None
    ensures reply.Failed? ==> r.stats == s.stats && r.error == Some(LoadError)
  {
    match reply
    case Ok(data) => StatsState(Some(data), false, None)
    case Failed(_) => s.(isLoading := false, error := Some(LoadError))
  }

  /** The state after a sequence of answers, oldest first. */
  function AfterAll(s: StatsState, replies: seq<Reply<SystemStats>>): StatsState
    decreases |replies|
  {
    if replies == [] then s else Settled(AfterAll(s, replies[..|replies| - 1]), replies[|replies| - 1])
  }

  /** The data of the latest successful answer, if any. */
  function LastSuccess(replies: seq<Reply<SystemStats>>): Option<SystemStats>
    decreases |replies|
  {
    if replies == [] then None
    else if replies[|replies| - 1].Ok? then Some(replies[|replies| - 1].data)
    else LastSuccess(replies[..|replies| - 1])
  }

  /** After any non-empty run of refreshes: nothing is loading, the error is
      set exactly when the latest refresh failed, and the statistics are those
      of the latest success, or the starting ones when none succeeded. */
  lemma {:induction false} AfterRefreshes(s: StatsState, replies: seq<Reply<SystemStats>>)
    requires replies != []
    ensures var r := AfterAll(s, replies);
      && !r.isLoading
      && (r.error == None <==> replies[|replies| - 1].Ok?)
      && (r.error != None ==> r.error == Some(LoadError))
      && r.stats == (if LastSuccess(replies) == None then s.stats else LastSuccess(replies))
    decreases |replies|
  {
    var init := replies[..|replies| - 1];
    if init != [] {
      AfterRefreshes(s, init);
    }
  }

  /** `StatisticsProvider`. */
  class StatisticsProvider {
    var stats: Option<SystemStats>
    var isLoading: bool
    var error: Option<string>

    function State(): StatsState
      reads this
    {
      StatsState(stats, isLoading, error)
    }

    constructor ()
      ensures State() == Initial
    {
      stats := None;
      isLoading := true;
      error := None;
    }

    /** The part of `refreshStats` before the `await`. */
    method BeginRefresh()
      modifies this
      ensures State() == old(State()).(isLoading := true)
    {
      isLoading := true;
    }

    /** The part of `refreshStats` after the `await`, given the answer. */
    method FinishRefresh(reply: Reply<SystemStats>)
      modifies this
      ensures State() == Settled(old(State()), reply)
    {
      match reply {
        case Ok(data) =>
          stats := Some(data);
          error := None;
        case Failed(_) =>
          error := Some(LoadError);
      }
      isLoading := false;
    }

    /** A whole `refreshStats`; the mount effect runs one. */
    method Refresh(reply: Reply<SystemStats>)
      modifies this
      ensures State() == Settled(old(State()), reply)
    {
      BeginRefresh();
      FinishRefresh(reply);
    }
  }

  /** The mount effect's single refresh taken from the initial state. */
  method Mount(reply: Reply<SystemStats>) returns (p: StatisticsProvider)
    ensures fresh(p) && p.State() == Settled(Initial, reply)
  {
    p := new StatisticsProvider();
    p.Refresh(reply);
  }
}
