/** The start-up connection check of
    mobile/components/connection/ConnectionCheckScreen.tsx: two state variables,
    `checking` and `connectionStatus`, set once the health check answers, and
    `renderContent`, which picks the view from them. The health check's answer is
    a parameter (a failure stands for a thrown error). */
module ConnectionCheck {
  import opened Wrappers
  import Api

  datatype ConnectionStatus = Checking | Connected | Disconnected

  datatype Content = ConnectingView | FailedView | SuccessView

  /** `renderContent`: connecting while the status is `checking` or the flag is
      set, then the failure view for a lost connection, else the success view. */
  function RenderContent(status: ConnectionStatus, checking: bool): (c: Content)
    ensures c == ConnectingView <==> status == Checking || checking
    ensures c == FailedView <==> status == Disconnected && !checking
    ensures c == SuccessView <==> status.Connected? && !checking
  {
    if status == Checking || checking then ConnectingView
    else if status == Disconnected then FailedView
    else SuccessView
  }

  /** The health answer counts as a success exactly when it parsed and its
      `status` is "ok". */
  predicate IsHealthy(result: Result<Api.HealthBody, string>) {
    result.Success? && result.value.status == Some("ok")
  }

  class Screen {
    var checking: bool
    var status: ConnectionStatus

    /** The screen opens checking. */
    constructor ()
      ensures checking && status == Checking
    {
      checking := true;
      status := Checking;
    }

    /** The states the screen can be in: while the status is `checking` or
        `connected` the flag stays set; once disconnected it is clear. */
    predicate Valid()
      reads this
    {
      && (status == Checking ==> checking)
      && (status == Connected ==> checking)
      && (status == Disconnected ==> !checking)
    }

    /** `checkBackendConnection` once the health check has answered: "ok" marks
        the screen connected and schedules the move to the home screen but
        leaves `checking` set; anything else, or an error, marks it
        disconnected and clears the flag. */
    method CheckBackendConnection(result: Result<Api.HealthBody, string>) returns (navigatesHome: bool)
      requires Valid() && status == Checking
      modifies this
      ensures navigatesHome <==> IsHealthy(result)
      ensures IsHealthy(result) ==> status == Connected && checking == old(checking)
      ensures !IsHealthy(result) ==> status == Disconnected && !checking
      ensures Valid()
    {
      navigatesHome := false;
      if result.Success? && result.value.status == Some("ok") {
        status := Connected;
        navigatesHome := true;
      } else {
        status := Disconnected;
        checking := false;
      }
    }

    /** `checkBackendConnection` as its success view evidently intends: an "ok"
        answer also clears the flag. */
    method CheckBackendConnectionClearingFlag(result: Result<Api.HealthBody, string>) returns (navigatesHome: bool)
      requires status == Checking
      modifies this
      ensures navigatesHome <==> IsHealthy(result)
      ensures IsHealthy(result) ==> status == Connected && RenderContent(status, checking) == SuccessView
      ensures !IsHealthy(result) ==> status == Disconnected && RenderContent(status, checking) == FailedView
    {
      navigatesHome := false;
      if result.Success? && result.value.status == Some("ok") {
        status := Connected;
        checking := false;
        navigatesHome := true;
      } else {
        status := Disconnected;
        checking := false;
      }
    }

    /** What is on screen now. */
    function Shown(): Content
      reads this
    {
      RenderContent(status, checking)
    }
  }

  /** In every state the screen can reach, the success view is never shown:
      after an "ok" answer the connecting view stays up until the screen is
      left. */
  lemma SuccessViewUnreachable(s: Screen)
    requires s.Valid()
    ensures s.Shown() != SuccessView
  {
  }

  /** A healthy answer keeps the connecting view up. */
  lemma HealthyAnswerStillConnecting()
    ensures RenderContent(Connected, true) == ConnectingView
  {
  }
}
