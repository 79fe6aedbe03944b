/**
 * The realtime feed of finished quality checks (js/notifications.js): which rows a
 * subscriber asks for, the single channel the module keeps, and what a new row
 * shows. The backend client and its channels are represented by what the module
 * passes to them.
 */
module Realtime {
  import opened JsText

  /** A new `quality_checks` row, with the fields the client reads. */
  /** A row's `total_issues`: absent from the payload, SQL NULL, or a number. */
  datatype RowCount = Missing | NullCount | Known(n: int)

  datatype QualityCheck = QualityCheck(overallStatus: Option<string>, totalIssues: RowCount, clientId: Option<string>, taskId: Option<string>)

  /** The `postgres_changes` subscription options. */
  datatype SubscriptionConfig = SubscriptionConfig(event: string, schema: string, table: string, filter: Option<string>)

  /** A channel the module opened: its options, the role it was opened for and whether a callback was given. */
  datatype Channel = Channel(config: SubscriptionConfig, role: string, hasCallback: bool)

  /** A fox sees its own checks, a client with a known id its own client's, everyone else every check. */
  function FilterFor(role: string, userId: string, clientId: Option<string>): (f: Option<string>)
    ensures role == "fox" ==> f == Some("fox_id=eq." + userId)
    ensures role == "client" && NonEmpty(clientId) ==> f == Some("client_id=eq." + clientId.value)
    ensures f.None? <==> role != "fox" && !(role == "client" && NonEmpty(clientId))
    ensures f.Some? ==> f.value != ""
  {
    if role == "fox" then Some("fox_id=eq." + userId)
    else if role == "client" && NonEmpty(clientId) then Some("client_id=eq." + clientId.value)
    else None
  }

  /** Inserts into `public.quality_checks`, with a `filter` key only for a truthy filter. */
  function ConfigFor(filter: Option<string>): (c: SubscriptionConfig)
    ensures c.event == "INSERT" && c.schema == "public" && c.table == "quality_checks"
    ensures c.filter.Some? <==> NonEmpty(filter)
    ensures c.filter.Some? ==> c.filter == filter
  {
    SubscriptionConfig("INSERT", "public", "quality_checks", if NonEmpty(filter) then filter else None)
  }

  /** The subscription carries a filter exactly when the role selects one. */
  lemma FilterKeyIffSelected(role: string, userId: string, clientId: Option<string>)
    ensures ConfigFor(FilterFor(role, userId, clientId)).filter == FilterFor(role, userId, clientId)
  {
  }

  /** The in-app banner and browser notification text. */
  datatype Notice = Notice(title: string, message: string)

  const CleanMessage: string := "All photos look clean! Great job! \U{1F389}"

  /** `${total_issues}`: a missing count renders as "undefined", a NULL one as "null". */
  function CountText(c: RowCount): (s: string)
    ensures c.Known? ==> s == IntToString(c.n)
    ensures c.Missing? ==> s == "undefined"
    ensures c.NullCount? ==> s == "null"
  {
    match c
    case Missing => "undefined"
    case NullCount => "null"
    case Known(n) => IntToString(n)
  }

  /** A pass is announced as clean; anything else reports the issue count. */
  function NoticeFor(row: QualityCheck): (n: Notice)
    ensures n.title == "✅ PASSED" <==> row.overallStatus == Some("pass")
    ensures n.message == CleanMessage <==> row.overallStatus == Some("pass")
    ensures row.overallStatus != Some("pass") ==>
              n == Notice("❌ FAILED", "Found " + CountText(row.totalIssues) + " issues. Action needed.")
  {
    if row.overallStatus == Some("pass") then Notice("✅ PASSED", CleanMessage)
    else
      var m := "Found " + CountText(row.totalIssues) + " issues. Action needed.";
      assert m[0] == 'F' != CleanMessage[0];
      Notice("❌ FAILED", m)
  }

  datatype Effect = Notify(notice: Notice) | Callback(row: QualityCheck)

  /** A new row is announced first, then handed to the subscriber's callback if there is one. */
  function OnInsert(ch: Channel, row: QualityCheck): (e: seq<Effect>)
    ensures |e| >= 1 && e[0] == Notify(NoticeFor(row))
    ensures Callback(row) in e <==> ch.hasCallback
    ensures ch.hasCallback ==> e[|e| - 1] == Callback(row)
  {
    [Notify(NoticeFor(row))] + (if ch.hasCallback then [Callback(row)] else [])
  }

  class Notifications {
    var channel: Option<Channel>
    /** The number of channels opened on the backend and not yet removed. */
    ghost var live: nat

    /** The module's channel is the only live one. */
    ghost predicate Valid()
      reads this
    {
      live == if channel.Some? then 1 else 0
    }

    constructor()
      ensures Valid() && channel == None
    {
      channel := None;
      live := 0;
    }

    /** Removes the channel; a no-op without a channel or without a backend client. */
    method Unsubscribe(hasBackend: bool)
      requires Valid()
      modifies this
      ensures Valid()
      ensures old(channel).Some? && hasBackend ==> channel == None
      ensures !(old(channel).Some? && hasBackend) ==> channel == old(channel)
    {
      if channel.Some? && hasBackend {
        live := live - 1;
        channel := None;
      }
    }

    /** Replaces any channel with one for `role`; without a backend client no channel is opened. */
    method Subscribe(userId: string, hasCallback: bool, role: string, clientId: Option<string>, hasBackend: bool)
      requires Valid()
      modifies this
      ensures Valid() && live <= 1
      ensures hasBackend ==> channel == Some(Channel(ConfigFor(FilterFor(role, userId, clientId)), role, hasCallback))
      ensures !hasBackend ==> channel == old(channel)
    {
      if channel.Some? {
        Unsubscribe(hasBackend);
      }
      if !hasBackend {
        return;
      }
      var filter := FilterFor(role, userId, clientId);
      channel := Some(Channel(ConfigFor(filter), role, hasCallback));
      live := live + 1;
    }
  }
}
