/** Properties of the contract across operations: the owner index stays
    consistent with the products' owners, histories only grow, and the status
    and history each operation leaves behind. */
module ContractProperties {
  import opened Basics
  import opened SupplyChain
  import opened SupplyChainState
  import opened SupplyChainContract

  // ---------------------------------------------------------------------------
  // The index helpers

  lemma AddPreservesIndex(s: State, p: Product)
    requires IndexConsistent(s)
    requires p.tokenId !in s.products
    ensures IndexConsistent(AddProduct(s, p))
  {
    var r := AddProduct(s, p);
    forall o, t | o in r.ownedTokenIds && t in r.ownedTokenIds[o]
      ensures t in r.products && r.products[t].owner == o
    {
      if o == p.owner && t == p.tokenId {
      } else if o == p.owner {
        assert t in s.ownedTokenIds[o];
      } else {
        assert t in s.ownedTokenIds[o];
      }
    }
  }

  lemma RemovePreservesIndex(s: State, p: Product)
    requires IndexConsistent(s)
    requires p.tokenId in s.products && s.products[p.tokenId].owner == p.owner
    ensures RemoveProduct(s, p).Ok?
    ensures IndexConsistent(RemoveProduct(s, p).value)
    ensures p.tokenId !in RemoveProduct(s, p).value.products
  {
    var r := RemoveProduct(s, p).value;
    forall t | t in r.products
      ensures r.products[t].owner in r.ownedTokenIds && t in r.ownedTokenIds[r.products[t].owner]
    {
      assert t in s.products && r.products[t] == s.products[t];
    }
  }

  lemma StorePreservesIndex(s: State, p: Product)
    requires IndexConsistent(s)
    requires p.tokenId in s.products && s.products[p.tokenId].owner == p.owner
    ensures IndexConsistent(Store(s, p))
  {
  }

  /** Removing a product undoes adding it, when the id was new and its owner
      already had a set. */
  lemma RemoveUndoesAdd(s: State, p: Product)
    requires p.tokenId !in s.products
    requires p.owner in s.ownedTokenIds && p.tokenId !in s.ownedTokenIds[p.owner]
    ensures RemoveProduct(AddProduct(s, p), p) == Ok(s)
  {
    var r := RemoveProduct(AddProduct(s, p), p).value;
    assert r.products == s.products;
    assert r.ownedTokenIds == s.ownedTokenIds;
  }

  /** Adding a stored product back after removing it restores the state. */
  lemma AddUndoesRemove(s: State, p: Product)
    requires IndexConsistent(s)
    requires p.tokenId in s.products && s.products[p.tokenId] == p
    ensures RemoveProduct(s, p).Ok?
    ensures AddProduct(RemoveProduct(s, p).value, p) == s
  {
    var r := AddProduct(RemoveProduct(s, p).value, p);
    assert r.products == s.products;
    assert r.ownedTokenIds[p.owner] == s.ownedTokenIds[p.owner];
    assert r.ownedTokenIds == s.ownedTokenIds;
  }

  // ---------------------------------------------------------------------------
  // Index consistency is an invariant

  /** The registration of a fresh id: the digest gives an id not stored yet.
      Token ids are SHA3-256 digests over inputs that include the counter, so
      this is the collision freedom that gives distinct registrations
      distinct ids. */
  predicate FreshRegistration(rt: Runtime, s: State, op: Operation)
  {
    op.RegisterProduct? ==> NextTokenId(rt, s, op.manufacturer, op.name, op.blobHash) !in s.products
  }

  lemma TransferPreservesIndex(rt: Runtime, s: State, p: Product, target: Account)
    requires IndexConsistent(s)
    requires p.tokenId in s.products && s.products[p.tokenId] == p
    ensures SupplyChainContract.TransferCustody(rt, s, p, target).Ok?
    ensures IndexConsistent(SupplyChainContract.TransferCustody(rt, s, p, target).value.state)
  {
    RemovePreservesIndex(s, p);
    var s1 := RemoveProduct(s, p).value;
    if target.chainId == rt.chainId {
      var inTransit := p.(checkpoints := p.checkpoints + [TransitCheckpoint(rt, p, target)], status := InTransit);
      var delivered := inTransit.(
        owner := target.owner,
        checkpoints := inTransit.checkpoints + [DeliveryCheckpoint(rt, target, "Delivered (same chain)")],
        status := Delivered);
      AddPreservesIndex(s1, delivered);
    }
  }

  lemma CheckedTransferPreservesIndex(rt: Runtime, s: State, claimed: AccountOwner, tokenId: TokenId, target: Account)
    requires IndexConsistent(s)
    ensures var r := CheckedTransfer(rt, s, claimed, tokenId, target);
            r.Ok? ==> IndexConsistent(r.value.state)
  {
    if tokenId in s.products && s.products[tokenId].owner == claimed {
      TransferPreservesIndex(rt, s, s.products[tokenId], target);
    }
  }

  /** Every operation keeps the owner index consistent with the products'
      owners. */
  lemma OperationPreservesIndex(rt: Runtime, s: State, op: Operation)
    requires IndexConsistent(s)
    requires FreshRegistration(rt, s, op)
    ensures var r := ExecuteOperation(rt, s, op);
            r.Ok? ==> IndexConsistent(r.value.state)
  {
    var r := ExecuteOperation(rt, s, op);
    match op
    case RegisterProduct(manufacturer, name, blobHash) =>
      if r.Ok? {
        var t := NextTokenId(rt, s, manufacturer, name, blobHash);
        var initial := Checkpoint(rt.now, ChainLocation(rt), Registered, manufacturer, Some("Product registered"));
        AddPreservesIndex(s, Product(t, manufacturer, name, manufacturer, blobHash, Registered, [initial], []));
      }
    case TransferCustody(sourceOwner, tokenId, targetAccount) =>
      CheckedTransferPreservesIndex(rt, s, sourceOwner, tokenId, targetAccount);
    case ClaimProduct(sourceAccount, tokenId, targetAccount) =>
      CheckedTransferPreservesIndex(rt, s, sourceAccount.owner, tokenId, targetAccount);
    case UpdateStatus(tokenId, newStatus, location, notes) =>
      if r.Ok? {
        StorePreservesIndex(s, UpdateProductStatus(rt, s.products[tokenId], newStatus, location, notes));
      }
    case AddCheckpoint(tokenId, location, status, notes) =>
      if r.Ok? {
        StorePreservesIndex(s, SupplyChainContract.AddCheckpoint(rt, s.products[tokenId], location, status, notes));
      }
    case VerifyProduct(tokenId, passed, details) =>
      if r.Ok? {
        StorePreservesIndex(s, SupplyChainContract.VerifyProduct(rt, s.products[tokenId], passed, details));
      }
    case RejectProduct(tokenId, reason) =>
      if r.Ok? {
        StorePreservesIndex(s, SupplyChainContract.RejectProduct(rt, s.products[tokenId], reason));
      }
  }

  /** Every incoming message keeps the index consistent, provided a product
      arriving by custody transfer is not already stored on this chain (it
      left its previous chain when it was sent). */
  lemma MessagePreservesIndex(rt: Runtime, s: State, msg: Message, isBouncing: bool)
    requires IndexConsistent(s)
    requires msg.TransferCustody? ==> msg.product.tokenId !in s.products
    ensures var r := ExecuteMessage(rt, s, msg, isBouncing);
            r.Ok? ==> IndexConsistent(r.value.state)
  {
    match msg
    case TransferCustody(product, targetAccount) =>
      if !isBouncing {
        var delivered := product.(
          owner := targetAccount.owner,
          checkpoints := product.checkpoints + [DeliveryCheckpoint(rt, targetAccount, "Delivered (cross-chain)")],
          status := Delivered);
        AddPreservesIndex(s, delivered);
      } else {
        AddPreservesIndex(s, product);
      }
    case ClaimProduct(sourceAccount, tokenId, targetAccount) =>
      CheckedTransferPreservesIndex(rt, s, sourceAccount.owner, tokenId, targetAccount);
  }

  // ---------------------------------------------------------------------------
  // Histories only grow

  /** `q` is a later version of `p`: same identity, name, manufacturer and
      blob, and both histories extended (never rewritten). */
  predicate Extends(p: Product, q: Product)
  {
    && q.tokenId == p.tokenId && q.name == p.name
    && q.manufacturer == p.manufacturer && q.blobHash == p.blobHash
    && p.checkpoints <= q.checkpoints && p.verifications <= q.verifications
  }

  /** After any operation, every product still stored on this chain is a later
      version of what was stored before, and a product sent away by a custody
      transfer travels as a later version of the stored one. */
  lemma OperationExtendsHistories(rt: Runtime, s: State, op: Operation)
    requires IndexConsistent(s)
    requires FreshRegistration(rt, s, op)
    ensures var r := ExecuteOperation(rt, s, op);
            r.Ok? ==>
              && (forall t :: t in s.products && t in r.value.state.products ==>
                    Extends(s.products[t], r.value.state.products[t]))
              && (forall i :: 0 <= i < |r.value.sent| && r.value.sent[i].message.TransferCustody? ==>
                    var q := r.value.sent[i].message.product;
                    q.tokenId in s.products && Extends(s.products[q.tokenId], q))
  {
    var r := ExecuteOperation(rt, s, op);
    if r.Ok? {
      match op
      case RegisterProduct(manufacturer, name, blobHash) =>
        assert forall t :: t in s.products ==> r.value.state.products[t] == s.products[t];
      case TransferCustody(sourceOwner, tokenId, target) =>
        TransferExtendsHistories(rt, s, s.products[tokenId], target);
      case ClaimProduct(sourceAccount, tokenId, target) =>
        if sourceAccount.chainId == rt.chainId {
          TransferExtendsHistories(rt, s, s.products[tokenId], target);
        }
      case UpdateStatus(tokenId, newStatus, location, notes) =>
        assert Extends(s.products[tokenId], r.value.state.products[tokenId]);
      case AddCheckpoint(tokenId, location, status, notes) =>
        assert Extends(s.products[tokenId], r.value.state.products[tokenId]);
      case VerifyProduct(tokenId, passed, details) =>
        assert Extends(s.products[tokenId], r.value.state.products[tokenId]);
      case RejectProduct(tokenId, reason) =>
        assert Extends(s.products[tokenId], r.value.state.products[tokenId]);
    }
  }

  /** A custody transfer of a stored product leaves every product still
      stored, and the one it sends away, as later versions of what was stored. */
  lemma TransferExtendsHistories(rt: Runtime, s: State, p: Product, target: Account)
    requires p.tokenId in s.products && s.products[p.tokenId] == p
    ensures var r := SupplyChainContract.TransferCustody(rt, s, p, target);
            r.Ok? ==>
              && (forall t :: t in s.products && t in r.value.state.products ==>
                    Extends(s.products[t], r.value.state.products[t]))
              && (forall i :: 0 <= i < |r.value.sent| && r.value.sent[i].message.TransferCustody? ==>
                    Extends(p, r.value.sent[i].message.product))
  {
  }

  /** A product received by custody transfer is stored as a later version of
      the one the message carried. */
  lemma MessageExtendsHistory(rt: Runtime, s: State, msg: Message, isBouncing: bool)
    requires msg.TransferCustody?
    ensures var r := ExecuteMessage(rt, s, msg, isBouncing);
            r.Ok? && msg.product.tokenId in r.value.state.products
            && Extends(msg.product, r.value.state.products[msg.product.tokenId])
  {
  }

  // ---------------------------------------------------------------------------
  // What each operation leaves behind

  /** The status each successful operation leaves on the product it touched,
      and how many checkpoints and verification records it appended. A claim
      made on the product's own chain is the same custody transfer. */
  lemma OperationOutcome(rt: Runtime, s: State, op: Operation)
    requires ActsOnStoredProduct(rt, op)
    requires StoredUnderOwnId(s) && op.tokenId in s.products
    ensures var r := ExecuteOperation(rt, s, op);
            var before := s.products[op.tokenId];
            r.Ok? ==>
              match op
              case UpdateStatus(t, newStatus, _, _) =>
                var after := r.value.state.products[t];
                after.status == newStatus
                && |after.checkpoints| == |before.checkpoints| + 1 && after.verifications == before.verifications
                && after.owner == before.owner
              case AddCheckpoint(t, _, status, _) =>
                var after := r.value.state.products[t];
                after.status == status
                && |after.checkpoints| == |before.checkpoints| + 1 && after.verifications == before.verifications
                && after.owner == before.owner
              case VerifyProduct(t, passed, _) =>
                var after := r.value.state.products[t];
                after.status == (if passed then Verified else Rejected)
                && |after.checkpoints| == |before.checkpoints| + 1
                && |after.verifications| == |before.verifications| + 1
                && after.owner == before.owner
              case RejectProduct(t, _) =>
                var after := r.value.state.products[t];
                after.status == Rejected
                && |after.checkpoints| == |before.checkpoints| + 1 && after.verifications == before.verifications
                && after.owner == before.owner
              case TransferCustody(_, t, target) =>
                if target.chainId == rt.chainId then
                  var after := r.value.state.products[t];
                  after.status == Delivered && after.owner == target.owner
                  && |after.checkpoints| == |before.checkpoints| + 2 && after.verifications == before.verifications
                else
                  t !in r.value.state.products
                  && |r.value.sent| == 1 && r.value.sent[0].message.TransferCustody?
                  && r.value.sent[0].message.product.status == InTransit
                  && |r.value.sent[0].message.product.checkpoints| == |before.checkpoints| + 1
              case ClaimProduct(_, t, target) =>
                if target.chainId == rt.chainId then
                  var after := r.value.state.products[t];
                  after.status == Delivered && after.owner == target.owner
                  && |after.checkpoints| == |before.checkpoints| + 2 && after.verifications == before.verifications
                else
                  t !in r.value.state.products
                  && |r.value.sent| == 1 && r.value.sent[0].message.TransferCustody?
                  && r.value.sent[0].message.product.status == InTransit
                  && |r.value.sent[0].message.product.checkpoints| == |before.checkpoints| + 1
  {
    var r := ExecuteOperation(rt, s, op);
    var before := s.products[op.tokenId];
    if r.Ok? {
      match op
      case UpdateStatus(t, newStatus, location, notes) =>
        assert r.value.state.products[t] == UpdateProductStatus(rt, before, newStatus, location, notes);
      case AddCheckpoint(t, location, status, notes) =>
        assert r.value.state.products[t] == SupplyChainContract.AddCheckpoint(rt, before, location, status, notes);
      case VerifyProduct(t, passed, details) =>
        assert r.value.state.products[t] == SupplyChainContract.VerifyProduct(rt, before, passed, details);
      case RejectProduct(t, reason) =>
      case TransferCustody(owner, t, target) =>
        assert r == SupplyChainContract.TransferCustody(rt, s, before, target);
      case ClaimProduct(source, t, target) =>
        assert r == SupplyChainContract.TransferCustody(rt, s, before, target);
    }
  }

  /** `add_checkpoint` and `update_product_status` have the same effect: both
      set the status and append the same checkpoint. */
  lemma AddCheckpointMatchesUpdateStatus(rt: Runtime, p: Product, location: string, status: ProductStatus,
                                         notes: Option<string>)
    ensures SupplyChainContract.AddCheckpoint(rt, p, location, status, notes) == UpdateProductStatus(rt, p, status, location, notes)
  {
  }

  /** Two registrations in a row on the same chain never produce the same
      token id when the digest has no collisions: the counter has moved. */
  lemma ConsecutiveRegistrationsDiffer(rt: Runtime, s: State, owner1: AccountOwner, name1: string,
                                       blob1: BlobHash, owner2: AccountOwner, name2: string, blob2: BlobHash)
    requires CollisionFree(rt.digest)
    requires SupplyChainContract.RegisterProduct(rt, s, owner1, name1, blob1).Ok?
    ensures var s1 := SupplyChainContract.RegisterProduct(rt, s, owner1, name1, blob1).value;
            NextTokenId(rt, s1, owner2, name2, blob2) != NextTokenId(rt, s, owner1, name1, blob1)
  {
    var s1 := SupplyChainContract.RegisterProduct(rt, s, owner1, name1, blob1).value;
    TokenIdsAreDistinct(rt.digest, rt.chainId, rt.applicationId, name2, owner2, blob2, s1.numRegisteredProducts,
                        name1, owner1, blob1, s.numRegisteredProducts);
  }

  // ---------------------------------------------------------------------------
  // Custody transfer across two chains

  /** A cross-chain transfer that is delivered leaves the product on the
      target chain with the target owner, status `Delivered`, and exactly two
      new checkpoints: `InTransit` by the old owner, `Delivered` by the new. */
  lemma CrossChainTransferDelivers(source: Runtime, target: Runtime, s: State, t: State, p: Product, to: Account)
    requires p.owner in s.ownedTokenIds
    requires to.chainId != source.chainId && to.chainId == target.chainId
    ensures var r := SupplyChainContract.TransferCustody(source, s, p, to);
            r.Ok? && |r.value.sent| == 1 && r.value.sent[0].destination == target.chainId
            && var d := ExecuteMessage(target, t, r.value.sent[0].message, false);
            d.Ok? && p.tokenId in d.value.state.products
            && var q := d.value.state.products[p.tokenId];
            q.owner == to.owner && q.status == Delivered && q.verifications == p.verifications
            && q.checkpoints == p.checkpoints + [TransitCheckpoint(source, p, to),
                                                 DeliveryCheckpoint(target, to, "Delivered (cross-chain)")]
            && p.tokenId in d.value.state.ownedTokenIds[to.owner]
  {
    var r := SupplyChainContract.TransferCustody(source, s, p, to);
    var m := r.value.sent[0].message;
    assert m.product.checkpoints == p.checkpoints + [TransitCheckpoint(source, p, to)];
  }

  /** A cross-chain transfer whose message bounces brings the product back to
      its old owner on the sending chain, `InTransit`, with the transit
      checkpoint kept. */
  lemma BouncedTransferReturnsProduct(rt: Runtime, s: State, p: Product, to: Account)
    requires IndexConsistent(s)
    requires p.tokenId in s.products && s.products[p.tokenId] == p
    requires to.chainId != rt.chainId
    ensures var r := SupplyChainContract.TransferCustody(rt, s, p, to);
            r.Ok? && |r.value.sent| == 1 && r.value.sent[0].tracked
            && var b := ExecuteMessage(rt, r.value.state, r.value.sent[0].message, true);
            b.Ok? && p.tokenId in b.value.state.products
            && var q := b.value.state.products[p.tokenId];
            q.owner == p.owner && q.status == InTransit
            && q.checkpoints == p.checkpoints + [TransitCheckpoint(rt, p, to)]
            && IndexConsistent(b.value.state)
  {
    TransferPreservesIndex(rt, s, p, to);
    var r := SupplyChainContract.TransferCustody(rt, s, p, to);
    MessagePreservesIndex(rt, r.value.state, r.value.sent[0].message, true);
  }
}
