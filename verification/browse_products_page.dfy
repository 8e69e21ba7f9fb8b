/** The browse page: the owner's product table, the four action dialogs and
    the requests they send, the handlers that close a dialog or show its
    error, and the refresh of the owned-products query. */
module BrowseProductsPage {
  import opened Basics
  import opened SupplyChain
  import opened SupplyChainState
  import opened SupplyChainContract
  import opened SupplyChainService
  import ManufacturerContext
  import ContractProperties

  // ---------------------------------------------------------------------------
  // The two spellings of a status

  /** How a status is written in a GraphQL argument: the enum value names
      async-graphql derives, in upper snake case. The status selects use these. */
  function WireToken(st: ProductStatus): string
  {
    match st
    case Registered => "REGISTERED"
    case InTransit => "IN_TRANSIT"
    case Delivered => "DELIVERED"
    case Verified => "VERIFIED"
    case Rejected => "REJECTED"
  }

  /** Reading a GraphQL enum argument; any other text is refused. */
  function ParseWireToken(s: string): (r: Option<ProductStatus>)
    ensures r.Some? ==> WireToken(r.value) == s
  {
    if s == "REGISTERED" then Some(Registered)
    else if s == "IN_TRANSIT" then Some(InTransit)
    else if s == "DELIVERED" then Some(Delivered)
    else if s == "VERIFIED" then Some(Verified)
    else if s == "REJECTED" then Some(Rejected)
    else None
  }

  lemma WireTokenRoundTrip(st: ProductStatus)
    ensures ParseWireToken(WireToken(st)) == Some(st)
  {
  }

  /** How a status appears in the owned-products JSON: the variant name, as
      serde writes it. The table's tags show these. */
  function DisplayName(st: ProductStatus): string
  {
    match st
    case Registered => "Registered"
    case InTransit => "InTransit"
    case Delivered => "Delivered"
    case Verified => "Verified"
    case Rejected => "Rejected"
  }

  function ParseDisplayName(s: string): (r: Option<ProductStatus>)
    ensures r.Some? ==> DisplayName(r.value) == s
  {
    if s == "Registered" then Some(Registered)
    else if s == "InTransit" then Some(InTransit)
    else if s == "Delivered" then Some(Delivered)
    else if s == "Verified" then Some(Verified)
    else if s == "Rejected" then Some(Rejected)
    else None
  }

  lemma DisplayNameRoundTrip(st: ProductStatus)
    ensures ParseDisplayName(DisplayName(st)) == Some(st)
  {
  }

  /** `getStatusColor`: a fixed colour per displayed status, `default` for
      any other text. */
  function GetStatusColor(status: string): (colour: string)
    ensures ParseDisplayName(status).None? <==> colour == "default"
  {
    if status == "Registered" then "blue"
    else if status == "InTransit" then "orange"
    else if status == "Delivered" then "green"
    else if status == "Verified" then "cyan"
    else if status == "Rejected" then "red"
    else "default"
  }

  /** Every status gets its own colour, none of them the fallback; the
      enum-style spelling of a status is not a key and falls back. */
  lemma StatusColoursAreDistinct(a: ProductStatus, b: ProductStatus)
    ensures GetStatusColor(DisplayName(a)) != "default"
    ensures GetStatusColor(DisplayName(a)) == GetStatusColor(DisplayName(b)) <==> a == b
    ensures GetStatusColor(WireToken(a)) == "default"
  {
  }

  // ---------------------------------------------------------------------------
  // Page state

  datatype Dialog = TransferDialog | CheckpointDialog | StatusDialog | VerifyDialog

  /** The page's React state: form fields, open dialogs, one error banner per
      dialog, and how many times the owned-products query has been issued. */
  datatype Page = Page(
    tokenId: string,
    targetChainId: string,
    targetOwner: string,
    location: string,
    status: string,
    notes: string,
    verifyPassed: bool,
    verifyDetails: string,
    open: set<Dialog>,
    transferError: string,
    checkpointError: string,
    statusError: string,
    verifyError: string,
    ownedQueries: nat)

  /** The state on first render: the status select starts at `IN_TRANSIT`,
      the verification result at pass. */
  const Initial := Page("", "", "", "", "IN_TRANSIT", "", true, "", {}, "", "", "", "", 0)

  /** The owner the owned-products query asks about, with its `0x` prefix. */
  function QueryOwner(owner: AccountOwner): (r: AccountOwner)
    ensures ManufacturerContext.Normalize(r) == r
  {
    ManufacturerContext.Normalize(owner)
  }

  /** The first render issues the owned-products query once. */
  function Mount(page: Page): (r: Page)
    ensures page.ownedQueries == 0 ==> r == page.(ownedQueries := 1)
    ensures page.ownedQueries > 0 ==> r == page
  {
    if page.ownedQueries == 0 then page.(ownedQueries := 1) else page
  }

  /** A notification on the page's chain refreshes the owned products. */
  function OnNotification(page: Page): (r: Page)
    ensures r.ownedQueries == page.ownedQueries + 1
    ensures r.(ownedQueries := page.ownedQueries) == page
  {
    page.(ownedQueries := page.ownedQueries + 1)
  }

  /** Opening a dialog from a table row remembers the row's token id text. */
  function OpenDialog(page: Page, dialog: Dialog, rowTokenId: string): (r: Page)
    ensures r.open == page.open + {dialog} && r.tokenId == rowTokenId
    ensures r.(open := page.open, tokenId := page.tokenId) == page
  {
    page.(tokenId := rowTokenId, open := page.open + {dialog})
  }

  /** `resetTransferDialog`. */
  function ResetTransfer(page: Page): (r: Page)
    ensures r.tokenId == "" && r.targetChainId == "" && r.targetOwner == "" && r.transferError == ""
    ensures r.(tokenId := page.tokenId, targetChainId := page.targetChainId, targetOwner := page.targetOwner,
               transferError := page.transferError) == page
  {
    page.(tokenId := "", targetChainId := "", targetOwner := "", transferError := "")
  }

  /** `resetCheckpointDialog`: the status select goes back to `IN_TRANSIT`. */
  function ResetCheckpoint(page: Page): (r: Page)
    ensures r.location == "" && r.status == WireToken(InTransit) && r.notes == "" && r.checkpointError == ""
    ensures r.(location := page.location, status := page.status, notes := page.notes,
               checkpointError := page.checkpointError) == page
  {
    page.(location := "", status := "IN_TRANSIT", notes := "", checkpointError := "")
  }

  /** `resetStatusDialog`: shares the location, status and notes fields with
      the checkpoint dialog; only its own error is cleared. */
  function ResetStatus(page: Page): (r: Page)
    ensures r.location == "" && r.status == WireToken(InTransit) && r.notes == "" && r.statusError == ""
    ensures r.(location := page.location, status := page.status, notes := page.notes,
               statusError := page.statusError) == page
  {
    page.(location := "", status := "IN_TRANSIT", notes := "", statusError := "")
  }

  /** `resetVerifyDialog`: the result goes back to pass. */
  function ResetVerify(page: Page): (r: Page)
    ensures r.verifyPassed && r.verifyDetails == "" && r.verifyError == ""
    ensures r.(verifyPassed := page.verifyPassed, verifyDetails := page.verifyDetails,
               verifyError := page.verifyError) == page
  {
    page.(verifyPassed := true, verifyDetails := "", verifyError := "")
  }

  /** The close handlers: hide the dialog and reset its fields. */
  function CloseDialog(page: Page, dialog: Dialog): (r: Page)
    ensures r.open == page.open - {dialog}
    ensures r.ownedQueries == page.ownedQueries
  {
    var closed := page.(open := page.open - {dialog});
    match dialog
    case TransferDialog => ResetTransfer(closed)
    case CheckpointDialog => ResetCheckpoint(closed)
    case StatusDialog => ResetStatus(closed)
    case VerifyDialog => ResetVerify(closed)
  }

  /** Closing a dialog clears exactly that dialog's error banner. */
  lemma CloseClearsOwnError(page: Page, dialog: Dialog)
    ensures ErrorOf(CloseDialog(page, dialog), dialog) == ""
    ensures forall d :: d != dialog ==> ErrorOf(CloseDialog(page, dialog), d) == ErrorOf(page, d)
  {
  }

  function ErrorOf(page: Page, dialog: Dialog): string
  {
    match dialog
    case TransferDialog => page.transferError
    case CheckpointDialog => page.checkpointError
    case StatusDialog => page.statusError
    case VerifyDialog => page.verifyError
  }

  // ---------------------------------------------------------------------------
  // Requests

  /** The mutations the page sends. Token ids travel as the text the table
      shows; statuses as GraphQL enum tokens; empty notes as null. */
  datatype Request =
    | TransferRequest(sourceOwner: AccountOwner, tokenId: string, targetAccount: Account)
    | AddCheckpointRequest(tokenId: string, location: string, status: string, notes: Option<string>)
    | UpdateStatusRequest(tokenId: string, newStatus: string, location: string, notes: Option<string>)
    | VerifyRequest(tokenId: string, passed: bool, details: string)
    | RejectRequest(tokenId: string, reason: string)

  /** `notes || null`: an empty note is sent as null. */
  function NotesOrNull(notes: string): (r: Option<string>)
    ensures r.None? <==> notes == ""
    ensures r.Some? ==> r.value == notes
  {
    if notes == "" then None else Some(notes)
  }

  /** `handleTransferSubmit`: both owners get the `0x` prefix. */
  function TransferSubmit(page: Page, owner: AccountOwner): (r: Request)
    ensures r.TransferRequest? && r.tokenId == page.tokenId
    ensures r.sourceOwner == ManufacturerContext.Normalize(owner)
    ensures r.targetAccount == Account(page.targetChainId, ManufacturerContext.Normalize(page.targetOwner))
  {
    TransferRequest(ManufacturerContext.Normalize(owner), page.tokenId,
                    Account(page.targetChainId, ManufacturerContext.Normalize(page.targetOwner)))
  }

  /** `handleCheckpointSubmit`. */
  function CheckpointSubmit(page: Page): (r: Request)
    ensures r.AddCheckpointRequest? && DialogOf(r) == CheckpointDialog && ErrorPrefix(r) == "Checkpoint Error: "
    ensures r.tokenId == page.tokenId && r.location == page.location && r.status == page.status
    ensures r.notes == NotesOrNull(page.notes)
  {
    AddCheckpointRequest(page.tokenId, page.location, page.status, NotesOrNull(page.notes))
  }

  /** `handleStatusSubmit`: the same fields as a checkpoint, as a status
      update. */
  function StatusSubmit(page: Page): (r: Request)
    ensures r.UpdateStatusRequest? && DialogOf(r) == StatusDialog && ErrorPrefix(r) == "Status Update Error: "
    ensures var c := CheckpointSubmit(page);
            r.tokenId == c.tokenId && r.newStatus == c.status && r.location == c.location && r.notes == c.notes
  {
    UpdateStatusRequest(page.tokenId, page.status, page.location, NotesOrNull(page.notes))
  }

  /** `handleVerifySubmit`: a pass sends a verification with `passed: true`;
      a failure sends a rejection whose reason is the details text, never a
      verification with `passed: false`. */
  function VerifySubmit(page: Page): (r: Request)
    ensures page.verifyPassed <==> r.VerifyRequest?
    ensures r.VerifyRequest? ==> r == VerifyRequest(page.tokenId, true, page.verifyDetails)
    ensures r.RejectRequest? ==> r == RejectRequest(page.tokenId, page.verifyDetails)
  {
    if page.verifyPassed then VerifyRequest(page.tokenId, true, page.verifyDetails)
    else RejectRequest(page.tokenId, page.verifyDetails)
  }

  /** The dialog a request's reply reports to. A rejection reports to the
      verification dialog. */
  function DialogOf(req: Request): Dialog
  {
    match req
    case TransferRequest(_, _, _) => TransferDialog
    case AddCheckpointRequest(_, _, _, _) => CheckpointDialog
    case UpdateStatusRequest(_, _, _, _) => StatusDialog
    case VerifyRequest(_, _, _) => VerifyDialog
    case RejectRequest(_, _) => VerifyDialog
  }

  /** The prefix of the error banner for a failed request. */
  function ErrorPrefix(req: Request): string
  {
    match req
    case TransferRequest(_, _, _) => "Transfer Error: "
    case AddCheckpointRequest(_, _, _, _) => "Checkpoint Error: "
    case UpdateStatusRequest(_, _, _, _) => "Status Update Error: "
    case VerifyRequest(_, _, _) => "Verify Error: "
    case RejectRequest(_, _) => "Reject Error: "
  }

  /** A reply to one of the page's mutations. */
  datatype Reply = Completed | Failed(message: string)

  /** The mutations' `onCompleted` and `onError`: completion closes the
      request's dialog (resetting it) and re-runs the owned-products query;
      failure only sets that dialog's banner, leaving it open. */
  function OnReply(page: Page, req: Request, reply: Reply): (r: Page)
    ensures reply.Completed? ==>
              && r.ownedQueries == page.ownedQueries + 1
              && DialogOf(req) !in r.open && r.open == page.open - {DialogOf(req)}
              && ErrorOf(r, DialogOf(req)) == ""
    ensures reply.Failed? ==>
              && r.ownedQueries == page.ownedQueries && r.open == page.open
              && ErrorOf(r, DialogOf(req)) == ErrorPrefix(req) + reply.message
    ensures forall d :: d != DialogOf(req) ==> ErrorOf(r, d) == ErrorOf(page, d)
  {
    match reply
    case Completed =>
      var closed := CloseDialog(page, DialogOf(req));
      CloseClearsOwnError(page, DialogOf(req));
      closed.(ownedQueries := closed.ownedQueries + 1)
    case Failed(message) =>
      match DialogOf(req)
      case TransferDialog => page.(transferError := ErrorPrefix(req) + message)
      case CheckpointDialog => page.(checkpointError := ErrorPrefix(req) + message)
      case StatusDialog => page.(statusError := ErrorPrefix(req) + message)
      case VerifyDialog => page.(verifyError := ErrorPrefix(req) + message)
  }

  // ---------------------------------------------------------------------------
  // What the service makes of the page's requests

  /** The service as written: its schema has only `registerProduct`,
      `transferCustody` and `claimProduct`, so of the page's requests only a
      transfer becomes an operation, its owner and chain id text read through
      the scalars. */
  function ServiceAsWritten(codec: Codec, scalars: Scalars, req: Request): (r: Result<Operation, Refusal>)
    ensures !req.TransferRequest? ==> r.Err? && r.error.UnknownField?
    ensures req.TransferRequest? ==>
              (r.Ok? <==> scalars.parseOwner(req.sourceOwner).Some? && ParseAccount(scalars, req.targetAccount).Ok?
                          && codec.decode(req.tokenId).Some?)
    ensures r.Ok? ==> r.value == Operation.TransferCustody(scalars.parseOwner(req.sourceOwner).value,
                                                           TokenId(codec.decode(req.tokenId).value),
                                                           ParseAccount(scalars, req.targetAccount).value)
  {
    match req
    case TransferRequest(sourceOwner, tokenId, targetAccount) =>
      (match scalars.parseOwner(sourceOwner)
       case None => Err(BadScalar(sourceOwner))
       case Some(source) =>
         match ParseAccount(scalars, targetAccount)
         case Err(e) => Err(e)
         case Ok(target) =>
           match TransferCustodyMutation(codec, source, tokenId, target)
           case Ok(op) => Ok(op)
           case Err(_) => Err(BadTokenId(tokenId)))
    case AddCheckpointRequest(_, _, _, _) => Err(UnknownField("addCheckpoint"))
    case UpdateStatusRequest(_, _, _, _) => Err(UnknownField("updateStatus"))
    case VerifyRequest(_, _, _) => Err(UnknownField("verifyProduct"))
    case RejectRequest(_, _) => Err(UnknownField("rejectProduct"))
  }

  /** With the service as written, submitting the checkpoint, status or
      verification dialog never changes any product: the request is refused,
      the page shows that dialog's error, and the dialog stays open. */
  lemma DialogsOtherThanTransferAlwaysFail(codec: Codec, scalars: Scalars, page: Page, message: string)
    ensures ServiceAsWritten(codec, scalars, CheckpointSubmit(page)).Err?
    ensures ServiceAsWritten(codec, scalars, StatusSubmit(page)).Err?
    ensures ServiceAsWritten(codec, scalars, VerifySubmit(page)).Err?
    ensures var r := OnReply(page, CheckpointSubmit(page), Failed(message));
            r.checkpointError == "Checkpoint Error: " + message && r.open == page.open
    ensures var r := OnReply(page, StatusSubmit(page), Failed(message));
            r.statusError == "Status Update Error: " + message && r.open == page.open
    ensures var r := OnReply(page, VerifySubmit(page), Failed(message));
            r.verifyError == (if page.verifyPassed then "Verify Error: " else "Reject Error: ") + message
            && r.open == page.open
  {
  }

  /** The service the page is written against: a transfer is read as the
      service as written reads it, and every other request becomes the
      operation of the same name, the token id text decoded and the status
      token read as a `ProductStatus`. */
  function IntendedService(codec: Codec, scalars: Scalars, req: Request): (r: Result<Operation, Refusal>)
    ensures req.TransferRequest? ==> r == ServiceAsWritten(codec, scalars, req)
    ensures r.Ok? ==> codec.decode(req.tokenId).Some? && !r.value.RegisterProduct?
                      && r.value.tokenId == TokenId(codec.decode(req.tokenId).value)
  {
    match req
    case TransferRequest(_, _, _) => ServiceAsWritten(codec, scalars, req)
    case AddCheckpointRequest(text, location, status, notes) =>
      (match (codec.decode(text), ParseWireToken(status))
       case (None, _) => Err(BadTokenId(text))
       case (_, None) => Err(BadEnumValue(status))
       case (Some(bytes), Some(st)) => Ok(Operation.AddCheckpoint(TokenId(bytes), location, st, notes)))
    case UpdateStatusRequest(text, newStatus, location, notes) =>
      (match (codec.decode(text), ParseWireToken(newStatus))
       case (None, _) => Err(BadTokenId(text))
       case (_, None) => Err(BadEnumValue(newStatus))
       case (Some(bytes), Some(st)) => Ok(Operation.UpdateStatus(TokenId(bytes), st, location, notes)))
    case VerifyRequest(text, passed, details) =>
      (match codec.decode(text)
       case None => Err(BadTokenId(text))
       case Some(bytes) => Ok(Operation.VerifyProduct(TokenId(bytes), passed, details)))
    case RejectRequest(text, reason) =>
      (match codec.decode(text)
       case None => Err(BadTokenId(text))
       case Some(bytes) => Ok(Operation.RejectProduct(TokenId(bytes), reason)))
  }

  /** End to end with the intended service: a checkpoint submitted from the
      row of a stored product, with a status chosen from the select, reaches
      that product and appends exactly the checkpoint the dialog describes,
      notes included, and sets the chosen status. */
  lemma CheckpointFromRowReachesProduct(rt: Runtime, s: State, codec: Codec, scalars: Scalars, page: Page,
                                        t: TokenId, st: ProductStatus)
    requires ValidCodec(codec) && StoredUnderOwnId(s) && t in s.products
    requires page.tokenId == codec.encode(t.id) && page.status == WireToken(st)
    ensures var op := IntendedService(codec, scalars, CheckpointSubmit(page));
            op == Ok(Operation.AddCheckpoint(t, page.location, st, NotesOrNull(page.notes)))
            && var r := ExecuteOperation(rt, s, op.value);
            r.Ok? && t in r.value.state.products
            && var p := s.products[t];
            var q := r.value.state.products[t];
            q.status == st
            && q.checkpoints == p.checkpoints + [Checkpoint(rt.now, page.location, st, p.owner, NotesOrNull(page.notes))]
  {
    assert codec.decode(codec.encode(t.id)) == Some(t.id);
    var op := Operation.AddCheckpoint(t, page.location, st, NotesOrNull(page.notes));
    var r := ExecuteOperation(rt, s, op);
    var q := SupplyChainContract.AddCheckpoint(rt, s.products[t], page.location, st, NotesOrNull(page.notes));
    assert r.value.state.products[t] == q;
    assert q.checkpoints == q.checkpoints[..|s.products[t].checkpoints|] + [q.checkpoints[|s.products[t].checkpoints|]];
  }

  /** End to end with the service as written: a transfer submitted from the
      row of a product its owner holds, with target text the scalars accept
      and a chain id naming this chain, hands the product over on the same
      chain to the owner the prefixed target text names. */
  lemma TransferFromRowReachesProduct(rt: Runtime, s: State, codec: Codec, scalars: Scalars, page: Page,
                                      owner: AccountOwner, t: TokenId)
    requires ValidCodec(codec) && IndexConsistent(s)
    requires t in s.products && s.products[t].owner == ManufacturerContext.Normalize(owner)
    requires ManufacturerContext.Normalize(owner) in rt.permitted
    requires scalars.parseOwner(ManufacturerContext.Normalize(owner)) == Some(ManufacturerContext.Normalize(owner))
    requires page.tokenId == codec.encode(t.id) && scalars.parseChainId(page.targetChainId) == Some(rt.chainId)
    requires scalars.parseOwner(ManufacturerContext.Normalize(page.targetOwner)).Some?
    ensures var op := ServiceAsWritten(codec, scalars, TransferSubmit(page, owner));
            op.Ok? && op.value.tokenId == t
            && var r := ExecuteOperation(rt, s, op.value);
            r.Ok? && t in r.value.state.products
            && r.value.state.products[t].owner == scalars.parseOwner(ManufacturerContext.Normalize(page.targetOwner)).value
            && r.value.state.products[t].status == Delivered
  {
    var target := Account(rt.chainId, scalars.parseOwner(ManufacturerContext.Normalize(page.targetOwner)).value);
    MutationsRoundTripTokenId(codec, t, ManufacturerContext.Normalize(owner), Account(rt.chainId, owner), target);
    var p := s.products[t];
    assert p.owner in s.ownedTokenIds;
  }

  /** A transfer whose typed target chain or owner the scalars refuse never
      reaches the chain: the request is refused and the page shows the
      transfer error with the dialog left open. */
  lemma MalformedTargetIsRefused(codec: Codec, scalars: Scalars, page: Page, owner: AccountOwner, message: string)
    requires scalars.parseChainId(page.targetChainId).None?
             || scalars.parseOwner(ManufacturerContext.Normalize(page.targetOwner)).None?
    ensures ServiceAsWritten(codec, scalars, TransferSubmit(page, owner)).Err?
    ensures var r := OnReply(page, TransferSubmit(page, owner), Failed(message));
            r.transferError == "Transfer Error: " + message && r.open == page.open
  {
  }

  /** The checkpoint and status dialogs share their fields and, with the
      intended service, have the same effect on the chain: either both are
      refused or both leave the same state. */
  lemma CheckpointAndStatusDialogsAgree(rt: Runtime, s: State, codec: Codec, scalars: Scalars, page: Page)
    ensures var c := IntendedService(codec, scalars, CheckpointSubmit(page));
            var u := IntendedService(codec, scalars, StatusSubmit(page));
            (c.Ok? <==> u.Ok?)
            && (c.Ok? ==> ExecuteOperation(rt, s, c.value) == ExecuteOperation(rt, s, u.value))
  {
    var c := IntendedService(codec, scalars, CheckpointSubmit(page));
    var u := IntendedService(codec, scalars, StatusSubmit(page));
    if c.Ok? {
      var t := c.value.tokenId;
      if t in s.products {
        var p := s.products[t];
        var st := c.value.status;
        var notes := NotesOrNull(page.notes);
        ContractProperties.AddCheckpointMatchesUpdateStatus(rt, p, page.location, st, notes);
        assert ExecuteOperation(rt, s, c.value)
               == Ok(Step(Store(s, SupplyChainContract.AddCheckpoint(rt, p, page.location, st, notes)), []));
        assert ExecuteOperation(rt, s, u.value)
               == Ok(Step(Store(s, UpdateProductStatus(rt, p, st, page.location, notes)), []));
      }
    }
  }

  // ---------------------------------------------------------------------------
  // The page over time

  datatype Event =
    | Opened(dialog: Dialog, rowTokenId: string)
    | Closed(dialog: Dialog)
    | Replied(req: Request, reply: Reply)
    | Notified

  /** An event that re-runs the owned-products query: a notification or a
      completed mutation. */
  predicate IsRefresh(e: Event)
  {
    e.Notified? || (e.Replied? && e.reply.Completed?)
  }

  /** One event's effect on the page: a dialog opened from a row is shown, a
      closed dialog is hidden, a completed mutation hides its dialog, and
      only refreshing events run the query. */
  function Apply(page: Page, e: Event): (r: Page)
    ensures r.ownedQueries == page.ownedQueries + (if IsRefresh(e) then 1 else 0)
    ensures e.Opened? ==> e.dialog in r.open
    ensures e.Closed? ==> e.dialog !in r.open
    ensures e.Replied? && e.reply.Completed? ==> DialogOf(e.req) !in r.open
    ensures !e.Opened? ==> r.open <= page.open
  {
    match e
    case Opened(dialog, rowTokenId) => OpenDialog(page, dialog, rowTokenId)
    case Closed(dialog) => CloseDialog(page, dialog)
    case Replied(req, reply) => OnReply(page, req, reply)
    case Notified => OnNotification(page)
  }

  /** The page after a sequence of events: the query never runs fewer times,
      and without an `Opened` event no dialog appears. */
  function Run(page: Page, events: seq<Event>): (r: Page)
    ensures r.ownedQueries >= page.ownedQueries
    ensures (forall i :: 0 <= i < |events| ==> !events[i].Opened?) ==> r.open <= page.open
    decreases |events|
  {
    if |events| == 0 then page
    else
      assert forall i :: 0 <= i < |events[1..]| ==> events[1..][i] == events[i + 1];
      Run(Apply(page, events[0]), events[1..])
  }

  /** How many of the events re-run the owned-products query. */
  function Refreshes(events: seq<Event>): nat
  {
    if |events| == 0 then 0
    else (if IsRefresh(events[0]) then 1 else 0) + Refreshes(events[1..])
  }

  /** Counting refreshes distributes over concatenation of event sequences. */
  lemma {:induction false} RefreshesAppend(a: seq<Event>, b: seq<Event>)
    ensures Refreshes(a + b) == Refreshes(a) + Refreshes(b)
  {
    if |a| == 0 {
      assert a + b == b;
    } else {
      assert (a + b)[1..] == a[1..] + b;
      RefreshesAppend(a[1..], b);
    }
  }

  /** Over a run of events the owned-products query runs once per
      notification and once per completed mutation, and at no other time:
      opening or closing a dialog and a failed mutation never refresh. */
  lemma {:induction false} QueryRunsOncePerRefresh(page: Page, events: seq<Event>)
    ensures Run(page, events).ownedQueries == page.ownedQueries + Refreshes(events)
    decreases |events|
  {
    if |events| > 0 {
      QueryRunsOncePerRefresh(Apply(page, events[0]), events[1..]);
    }
  }
}
