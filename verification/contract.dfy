/** The contract: how each operation and each incoming message changes one
    chain's state and which messages it sends to other chains.

    Every panic of the contract (`expect`, `assert_eq!`, a failed permission
    check) aborts the whole transaction, so a step either yields `Ok` with the
    new state and the messages to send, or `Err` with the reason and no state
    change at all. */
module SupplyChainContract {
  import opened Basics
  import opened SupplyChain
  import opened SupplyChainState

  /** What the contract asks of its runtime while executing. */
  datatype Runtime = Runtime(
    /** `chain_id()`: the chain executing the transaction. */
    chainId: ChainId,
    /** `application_id()`. */
    applicationId: ApplicationId,
    /** `system_time()`: constant within a transaction. */
    now: Timestamp,
    /** The owners `check_account_permission` accepts in this transaction. */
    permitted: set<AccountOwner>,
    /** The blobs `assert_data_blob_exists` finds. */
    publishedBlobs: set<BlobHash>,
    /** SHA3-256 over the BCS encoding of the registration inputs. */
    digest: TokenSeed -> TokenId)

  datatype Abort =
    | PermissionDenied(owner: AccountOwner)
    | BlobNotPublished(blobHash: BlobHash)
    | ProductNotFound(tokenId: TokenId)
    | NotCurrentOwner(claimed: AccountOwner, actual: AccountOwner)
    | OwnerSetMissing(owner: AccountOwner)

  /** A message handed to the runtime, with the chain it is sent to and
      whether it is tracked (so that it bounces back if rejected) or carries
      the sender's authentication. */
  datatype Outgoing = Outgoing(destination: ChainId, message: Message, tracked: bool, authenticated: bool)

  datatype Step = Step(state: State, sent: seq<Outgoing>)

  /** The `location` the contract writes into the checkpoints it creates. */
  function ChainLocation(rt: Runtime): string
  {
    "Chain " + rt.chainId
  }

  /** `get_product`: fails with "Product not found" on an unknown id. */
  function GetProduct(s: State, tokenId: TokenId): (r: Result<Product, Abort>)
    ensures r.Ok? <==> tokenId in s.products
    ensures r.Ok? ==> r.value == s.products[tokenId]
    ensures r.Err? ==> r.error == ProductNotFound(tokenId)
  {
    if tokenId in s.products then Ok(s.products[tokenId]) else Err(ProductNotFound(tokenId))
  }

  /** `add_product`: stores the product under its token id and inserts that id
      into its owner's set, creating the set if there is none. No other owner's
      set changes. */
  function AddProduct(s: State, p: Product): (r: State)
    ensures r.products.Keys == s.products.Keys + {p.tokenId} && r.products[p.tokenId] == p
    ensures forall t :: t in s.products && t != p.tokenId ==> r.products[t] == s.products[t]
    ensures r.ownedTokenIds.Keys == s.ownedTokenIds.Keys + {p.owner}
    ensures r.ownedTokenIds[p.owner] == OwnedBy(s, p.owner) + {p.tokenId}
    ensures forall o :: o in s.ownedTokenIds && o != p.owner ==> r.ownedTokenIds[o] == s.ownedTokenIds[o]
    ensures r.numRegisteredProducts == s.numRegisteredProducts
  {
    var ids := if p.owner in s.ownedTokenIds then s.ownedTokenIds[p.owner] + {p.tokenId} else {p.tokenId};
    s.(products := s.products[p.tokenId := p], ownedTokenIds := s.ownedTokenIds[p.owner := ids])
  }

  /** `remove_product`: deletes the product and removes its id from its
      owner's set only; fails when the owner has no set at all. The owner's
      set stays in the index even when it becomes empty. */
  function RemoveProduct(s: State, p: Product): (r: Result<State, Abort>)
    ensures r.Ok? <==> p.owner in s.ownedTokenIds
    ensures r.Err? ==> r.error == OwnerSetMissing(p.owner)
    ensures r.Ok? ==> r.value.products.Keys == s.products.Keys - {p.tokenId}
    ensures r.Ok? ==> forall t :: t in r.value.products ==> r.value.products[t] == s.products[t]
    ensures r.Ok? ==> r.value.ownedTokenIds.Keys == s.ownedTokenIds.Keys
    ensures r.Ok? ==> r.value.ownedTokenIds[p.owner] == s.ownedTokenIds[p.owner] - {p.tokenId}
    ensures r.Ok? ==> forall o :: o in s.ownedTokenIds && o != p.owner ==>
                        r.value.ownedTokenIds[o] == s.ownedTokenIds[o]
    ensures r.Ok? ==> r.value.numRegisteredProducts == s.numRegisteredProducts
  {
    if p.owner !in s.ownedTokenIds then
      Err(OwnerSetMissing(p.owner))
    else
      Ok(s.(products := s.products - {p.tokenId},
            ownedTokenIds := s.ownedTokenIds[p.owner := s.ownedTokenIds[p.owner] - {p.tokenId}]))
  }

  /** Writes an updated product back under its token id (`products.insert`). */
  function Store(s: State, p: Product): (r: State)
    ensures r.products.Keys == s.products.Keys + {p.tokenId} && r.products[p.tokenId] == p
    ensures forall t :: t in s.products && t != p.tokenId ==> r.products[t] == s.products[t]
    ensures r.ownedTokenIds == s.ownedTokenIds && r.numRegisteredProducts == s.numRegisteredProducts
  {
    s.(products := s.products[p.tokenId := p])
  }

  /** The id `register_product` gives a new product: the digest of the chain,
      the application, the product's name, manufacturer and blob, and the
      current value of the registration counter. */
  function NextTokenId(rt: Runtime, s: State, owner: AccountOwner, name: string, blobHash: BlobHash): (t: TokenId)
    ensures CollisionFree(rt.digest) ==>
              forall n: nat :: n != s.numRegisteredProducts ==>
                CreateTokenId(rt.digest, rt.chainId, rt.applicationId, name, owner, blobHash, n) != t
  {
    CreateTokenId(rt.digest, rt.chainId, rt.applicationId, name, owner, blobHash, s.numRegisteredProducts)
  }

  /** `register_product`: the registering account becomes both owner and
      manufacturer; the product starts `Registered` with a single
      `Registered` checkpoint by that account and no verifications; the
      counter grows by one. Fails when the blob was never published. */
  function RegisterProduct(rt: Runtime, s: State, owner: AccountOwner, name: string, blobHash: BlobHash)
    : (r: Result<State, Abort>)
    ensures r.Ok? <==> blobHash in rt.publishedBlobs
    ensures r.Err? ==> r.error == BlobNotPublished(blobHash)
    ensures r.Ok? ==>
      var t := NextTokenId(rt, s, owner, name, blobHash);
      && r.value.products.Keys == s.products.Keys + {t}
      && var p := r.value.products[t];
      && p.tokenId == t && p.owner == owner && p.manufacturer == owner
      && p.name == name && p.blobHash == blobHash
      && p.status == Registered && p.verifications == []
      && |p.checkpoints| == 1
      && p.checkpoints[0].status == Registered && p.checkpoints[0].party == owner
      && p.checkpoints[0].timestamp == rt.now
      && r.value.ownedTokenIds.Keys == s.ownedTokenIds.Keys + {owner}
      && r.value.ownedTokenIds[owner] == OwnedBy(s, owner) + {t}
    ensures r.Ok? ==> r.value.numRegisteredProducts == s.numRegisteredProducts + 1
    ensures r.Ok? ==> forall t :: t in s.products && t != NextTokenId(rt, s, owner, name, blobHash) ==>
                        r.value.products[t] == s.products[t]
    ensures r.Ok? ==> forall o :: o in s.ownedTokenIds && o != owner ==>
                        r.value.ownedTokenIds[o] == s.ownedTokenIds[o]
  {
    if blobHash !in rt.publishedBlobs then
      Err(BlobNotPublished(blobHash))
    else
      var tokenId := NextTokenId(rt, s, owner, name, blobHash);
      var initial := Checkpoint(rt.now, ChainLocation(rt), Registered, owner, Some("Product registered"));
      var s1 := AddProduct(s, Product(tokenId, owner, name, owner, blobHash, Registered, [initial], []));
      Ok(s1.(numRegisteredProducts := s1.numRegisteredProducts + 1))
  }

  /** The checkpoint a custody transfer always appends first. */
  function TransitCheckpoint(rt: Runtime, p: Product, target: Account): Checkpoint
  {
    Checkpoint(rt.now, ChainLocation(rt), InTransit, p.owner, Some("Transfer to " + target.owner))
  }

  /** The checkpoint that records delivery to the target owner. */
  function DeliveryCheckpoint(rt: Runtime, target: Account, note: string): Checkpoint
  {
    Checkpoint(rt.now, ChainLocation(rt), Delivered, target.owner, Some(note))
  }

  /** `transfer_custody` (callers have checked ownership): the product leaves
      its owner's set and gains an `InTransit` checkpoint by the old owner.
      On the same chain it is then delivered at once: new owner, a `Delivered`
      checkpoint by the target, status `Delivered`, indexed under the target.
      Otherwise it is sent, as it stands after the first checkpoint, in a
      tracked message to the target chain. */
  function TransferCustody(rt: Runtime, s: State, p: Product, target: Account): (r: Result<Step, Abort>)
    ensures r.Ok? <==> p.owner in s.ownedTokenIds
    ensures r.Err? ==> r.error == OwnerSetMissing(p.owner)
    ensures r.Ok? && (target.chainId != rt.chainId || target.owner != p.owner) ==>
              p.tokenId !in OwnedBy(r.value.state, p.owner)
    ensures r.Ok? && target.chainId == rt.chainId ==>
              && r.value.sent == []
              && r.value.state.products.Keys == s.products.Keys - {p.tokenId} + {p.tokenId}
              && r.value.state.products[p.tokenId] ==
                   p.(owner := target.owner, status := Delivered,
                      checkpoints := p.checkpoints + [TransitCheckpoint(rt, p, target),
                                                      DeliveryCheckpoint(rt, target, "Delivered (same chain)")])
              && target.owner in r.value.state.ownedTokenIds
              && p.tokenId in r.value.state.ownedTokenIds[target.owner]
    ensures r.Ok? && target.chainId != rt.chainId ==>
              && r.value.state.products.Keys == s.products.Keys - {p.tokenId}
              && r.value.sent == [Outgoing(target.chainId,
                                           Message.TransferCustody(
                                             p.(status := InTransit,
                                                checkpoints := p.checkpoints + [TransitCheckpoint(rt, p, target)]),
                                             target),
                                           true, false)]
    ensures r.Ok? ==> forall t :: t in s.products && t != p.tokenId ==> r.value.state.products[t] == s.products[t]
    ensures r.Ok? ==> r.value.state.numRegisteredProducts == s.numRegisteredProducts
    ensures r.Ok? ==> r.value.state.ownedTokenIds.Keys
                        == s.ownedTokenIds.Keys + (if target.chainId == rt.chainId then {target.owner} else {})
    ensures r.Ok? ==> forall o :: (o in s.ownedTokenIds && o != p.owner
                                   && (target.chainId != rt.chainId || o != target.owner)) ==>
                                   r.value.state.ownedTokenIds[o] == s.ownedTokenIds[o]
    ensures r.Ok? && (target.chainId != rt.chainId || target.owner != p.owner) ==>
              r.value.state.ownedTokenIds[p.owner] == s.ownedTokenIds[p.owner] - {p.tokenId}
    ensures r.Ok? && target.chainId == rt.chainId ==>
              r.value.state.ownedTokenIds[target.owner]
                == (if target.owner == p.owner then s.ownedTokenIds[p.owner] - {p.tokenId}
                    else OwnedBy(s, target.owner)) + {p.tokenId}
  {
    match RemoveProduct(s, p)
    case Err(e) => Err(e)
    case Ok(s1) =>
      var inTransit := p.(checkpoints := p.checkpoints + [TransitCheckpoint(rt, p, target)], status := InTransit);
      if target.chainId == rt.chainId then
        var delivered := inTransit.(
          owner := target.owner,
          checkpoints := inTransit.checkpoints + [DeliveryCheckpoint(rt, target, "Delivered (same chain)")],
          status := Delivered);
        assert delivered.checkpoints == p.checkpoints + [TransitCheckpoint(rt, p, target),
                                                         DeliveryCheckpoint(rt, target, "Delivered (same chain)")];
        Ok(Step(AddProduct(s1, delivered), []))
      else
        Ok(Step(s1, [Outgoing(target.chainId, Message.TransferCustody(inTransit, target), true, false)]))
  }

  /** `update_product_status`: sets the status and appends exactly one
      checkpoint carrying it, the location and the notes, by the current
      owner. Nothing else about the product changes. */
  function UpdateProductStatus(rt: Runtime, p: Product, newStatus: ProductStatus, location: string,
                               notes: Option<string>): (q: Product)
    ensures q.status == newStatus
    ensures |q.checkpoints| == |p.checkpoints| + 1 && p.checkpoints <= q.checkpoints
    ensures q.checkpoints[|p.checkpoints|] == Checkpoint(rt.now, location, newStatus, p.owner, notes)
    ensures q.(status := p.status, checkpoints := p.checkpoints) == p
  {
    p.(status := newStatus,
       checkpoints := p.checkpoints + [Checkpoint(rt.now, location, newStatus, p.owner, notes)])
  }

  /** `add_checkpoint`: appends a checkpoint with the given status, and also
      overwrites the product's status with it. */
  function AddCheckpoint(rt: Runtime, p: Product, location: string, status: ProductStatus,
                         notes: Option<string>): (q: Product)
    ensures q.status == status
    ensures |q.checkpoints| == |p.checkpoints| + 1 && p.checkpoints <= q.checkpoints
    ensures q.checkpoints[|p.checkpoints|] == Checkpoint(rt.now, location, status, p.owner, notes)
    ensures q.(status := p.status, checkpoints := p.checkpoints) == p
  {
    var withCheckpoint := p.(checkpoints := p.checkpoints + [Checkpoint(rt.now, location, status, p.owner, notes)]);
    withCheckpoint.(status := status)
  }

  /** `verify_product`: appends one verification record by the owner, and one
      checkpoint; the status becomes `Verified` when the check passed and
      `Rejected` otherwise. */
  function VerifyProduct(rt: Runtime, p: Product, passed: bool, details: string): (q: Product)
    ensures q.status == (if passed then Verified else Rejected)
    ensures |q.verifications| == |p.verifications| + 1 && p.verifications <= q.verifications
    ensures q.verifications[|p.verifications|] == VerificationRecord(p.owner, rt.now, passed, details)
    ensures |q.checkpoints| == |p.checkpoints| + 1 && p.checkpoints <= q.checkpoints
    ensures var c := q.checkpoints[|p.checkpoints|];
            c.status == q.status && c.party == p.owner && c.timestamp == rt.now
            && c.location == ChainLocation(rt)
            && c.notes == Some((if passed then "Verification passed: " else "Verification failed: ") + details)
    ensures q.(status := p.status, checkpoints := p.checkpoints, verifications := p.verifications) == p
  {
    var record := VerificationRecord(p.owner, rt.now, passed, details);
    var p1 := p.(verifications := p.verifications + [record]);
    if passed then
      var cp := Checkpoint(rt.now, ChainLocation(rt), Verified, p1.owner, Some("Verification passed: " + details));
      p1.(status := Verified, checkpoints := p1.checkpoints + [cp])
    else
      var cp := Checkpoint(rt.now, ChainLocation(rt), Rejected, p1.owner, Some("Verification failed: " + details));
      p1.(status := Rejected, checkpoints := p1.checkpoints + [cp])
  }

  /** `reject_product`: status `Rejected` and one checkpoint, but no
      verification record. */
  function RejectProduct(rt: Runtime, p: Product, reason: string): (q: Product)
    ensures q.status == Rejected && q.verifications == p.verifications
    ensures |q.checkpoints| == |p.checkpoints| + 1 && p.checkpoints <= q.checkpoints
    ensures q.checkpoints[|p.checkpoints|]
            == Checkpoint(rt.now, ChainLocation(rt), Rejected, p.owner, Some("Rejected: " + reason))
    ensures q.(status := p.status, checkpoints := p.checkpoints) == p
  {
    var cp := Checkpoint(rt.now, ChainLocation(rt), Rejected, p.owner, Some("Rejected: " + reason));
    p.(status := Rejected, checkpoints := p.checkpoints + [cp])
  }

  /** Looks the product up, applies `update` to it and stores the result. */
  function UpdateStored(s: State, tokenId: TokenId, update: Product -> Product): (r: Result<Step, Abort>)
    ensures r.Ok? <==> tokenId in s.products
    ensures r.Err? ==> r.error == ProductNotFound(tokenId)
    ensures r.Ok? ==> r.value == Step(Store(s, update(s.products[tokenId])), [])
  {
    match GetProduct(s, tokenId)
    case Err(e) => Err(e)
    case Ok(p) => Ok(Step(Store(s, update(p)), []))
  }

  /** `ClaimProduct` checks and `TransferCustody` checks: the product exists,
      the claimed owner is its current owner, then the custody transfer. */
  function CheckedTransfer(rt: Runtime, s: State, claimed: AccountOwner, tokenId: TokenId, target: Account)
    : (r: Result<Step, Abort>)
    ensures tokenId !in s.products ==> r == Err(ProductNotFound(tokenId))
    ensures tokenId in s.products && s.products[tokenId].owner != claimed ==>
              r == Err(NotCurrentOwner(claimed, s.products[tokenId].owner))
    ensures tokenId in s.products && s.products[tokenId].owner == claimed ==>
              r == TransferCustody(rt, s, s.products[tokenId], target)
  {
    match GetProduct(s, tokenId)
    case Err(e) => Err(e)
    case Ok(p) =>
      if claimed != p.owner then Err(NotCurrentOwner(claimed, p.owner))
      else TransferCustody(rt, s, p, target)
  }

  /** The operation's product, for the operations that act on a stored one. */
  predicate ActsOnStoredProduct(rt: Runtime, op: Operation)
  {
    !op.RegisterProduct? && !(op.ClaimProduct? && op.sourceAccount.chainId != rt.chainId)
  }

  /** `execute_operation`. */
  function ExecuteOperation(rt: Runtime, s: State, op: Operation): (r: Result<Step, Abort>)
    ensures ActsOnStoredProduct(rt, op) && op.tokenId !in s.products ==> r.Err?
    ensures op.RegisterProduct? ==>
              (r.Ok? <==> op.manufacturer in rt.permitted && op.blobHash in rt.publishedBlobs)
    ensures r.Ok? && op.TransferCustody? ==>
              op.sourceOwner in rt.permitted && op.tokenId in s.products
              && s.products[op.tokenId].owner == op.sourceOwner
    ensures r.Ok? && op.ClaimProduct? ==> op.sourceAccount.owner in rt.permitted
    ensures op.TransferCustody? && op.sourceOwner in rt.permitted ==>
              r == CheckedTransfer(rt, s, op.sourceOwner, op.tokenId, op.targetAccount)
    ensures op.ClaimProduct? && op.sourceAccount.chainId == rt.chainId && op.sourceAccount.owner in rt.permitted ==>
              r == CheckedTransfer(rt, s, op.sourceAccount.owner, op.tokenId, op.targetAccount)
    ensures op.ClaimProduct? && op.sourceAccount.chainId != rt.chainId && op.sourceAccount.owner in rt.permitted ==>
              r == Ok(Step(s, [Outgoing(op.sourceAccount.chainId,
                                        Message.ClaimProduct(op.sourceAccount, op.tokenId, op.targetAccount),
                                        false, true)]))
    ensures r.Ok? && !op.TransferCustody? && !op.ClaimProduct? ==> r.value.sent == []
  {
    match op
    case RegisterProduct(manufacturer, name, blobHash) =>
      if manufacturer !in rt.permitted then Err(PermissionDenied(manufacturer))
      else
        (match RegisterProduct(rt, s, manufacturer, name, blobHash)
         case Err(e) => Err(e)
         case Ok(s1) => Ok(Step(s1, [])))
    case TransferCustody(sourceOwner, tokenId, targetAccount) =>
      if sourceOwner !in rt.permitted then Err(PermissionDenied(sourceOwner))
      else CheckedTransfer(rt, s, sourceOwner, tokenId, targetAccount)
    case ClaimProduct(sourceAccount, tokenId, targetAccount) =>
      if sourceAccount.owner !in rt.permitted then Err(PermissionDenied(sourceAccount.owner))
      else if sourceAccount.chainId == rt.chainId then
        CheckedTransfer(rt, s, sourceAccount.owner, tokenId, targetAccount)
      else
        Ok(Step(s, [Outgoing(sourceAccount.chainId, Message.ClaimProduct(sourceAccount, tokenId, targetAccount),
                             false, true)]))
    case UpdateStatus(tokenId, newStatus, location, notes) =>
      UpdateStored(s, tokenId, p => UpdateProductStatus(rt, p, newStatus, location, notes))
    case AddCheckpoint(tokenId, location, status, notes) =>
      UpdateStored(s, tokenId, p => AddCheckpoint(rt, p, location, status, notes))
    case VerifyProduct(tokenId, passed, details) =>
      UpdateStored(s, tokenId, p => VerifyProduct(rt, p, passed, details))
    case RejectProduct(tokenId, reason) =>
      UpdateStored(s, tokenId, p => RejectProduct(rt, p, reason))
  }

  /** `execute_message`. A custody transfer that is delivered hands the
      product to the target owner with a `Delivered` checkpoint by the target;
      one that bounces re-adds the product on the sending chain unchanged. A
      claim runs the checked transfer on the chain that holds the product. */
  function ExecuteMessage(rt: Runtime, s: State, msg: Message, isBouncing: bool): (r: Result<Step, Abort>)
    ensures msg.TransferCustody? ==> r.Ok? && r.value.sent == []
    ensures msg.TransferCustody? && !isBouncing ==>
              var p := msg.product;
              && p.tokenId in r.value.state.products
              && r.value.state.products[p.tokenId] == p.(owner := msg.targetAccount.owner, status := Delivered,
                              checkpoints := p.checkpoints
                                + [DeliveryCheckpoint(rt, msg.targetAccount, "Delivered (cross-chain)")])
              && msg.targetAccount.owner in r.value.state.ownedTokenIds
              && p.tokenId in r.value.state.ownedTokenIds[msg.targetAccount.owner]
    ensures msg.TransferCustody? && isBouncing ==>
              && msg.product.tokenId in r.value.state.products
              && r.value.state.products[msg.product.tokenId] == msg.product
              && msg.product.owner in r.value.state.ownedTokenIds
              && msg.product.tokenId in r.value.state.ownedTokenIds[msg.product.owner]
    ensures msg.ClaimProduct? && msg.sourceAccount.owner !in rt.permitted ==> r.Err?
    ensures msg.ClaimProduct? && msg.sourceAccount.owner in rt.permitted ==>
              r == CheckedTransfer(rt, s, msg.sourceAccount.owner, msg.tokenId, msg.targetAccount)
    ensures msg.TransferCustody? ==>
              && r.value.state.products.Keys == s.products.Keys + {msg.product.tokenId}
              && (forall t :: t in s.products && t != msg.product.tokenId ==>
                    r.value.state.products[t] == s.products[t])
              && r.value.state.numRegisteredProducts == s.numRegisteredProducts
    ensures msg.TransferCustody? ==>
              var holder := if isBouncing then msg.product.owner else msg.targetAccount.owner;
              && r.value.state.ownedTokenIds.Keys == s.ownedTokenIds.Keys + {holder}
              && r.value.state.ownedTokenIds[holder] == OwnedBy(s, holder) + {msg.product.tokenId}
              && (forall o :: o in s.ownedTokenIds && o != holder ==>
                    r.value.state.ownedTokenIds[o] == s.ownedTokenIds[o])
  {
    match msg
    case TransferCustody(product, targetAccount) =>
      if !isBouncing then
        var delivered := product.(
          owner := targetAccount.owner,
          checkpoints := product.checkpoints + [DeliveryCheckpoint(rt, targetAccount, "Delivered (cross-chain)")],
          status := Delivered);
        Ok(Step(AddProduct(s, delivered), []))
      else
        Ok(Step(AddProduct(s, product), []))
    case ClaimProduct(sourceAccount, tokenId, targetAccount) =>
      if sourceAccount.owner !in rt.permitted then Err(PermissionDenied(sourceAccount.owner))
      else CheckedTransfer(rt, s, sourceAccount.owner, tokenId, targetAccount)
  }
}
