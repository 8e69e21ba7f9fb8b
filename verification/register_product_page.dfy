/** The product registration page: publish the image URL as a data blob, then
    register the product under the blob's hash, then go to the browse page.
    The two GraphQL mutations are modelled by the replies they produce. */
module RegisterProductPage {
  import opened Basics
  import Utf8
  import opened SupplyChain
  import opened SupplyChainState
  import opened SupplyChainContract
  import opened SupplyChainService
  import ManufacturerContext

  /** A mutation's outcome as the page sees it: the result data, or an error
      whose message reaches `onError`. */
  datatype Reply<T> = Completed(data: T) | Failed(message: string)

  /** The requests the page sends, in order. */
  datatype Call =
    | PublishDataBlob(chainId: ChainId, bytes: seq<byte>)
    | RegisterMutation(manufacturer: AccountOwner, name: string, blobHash: BlobHash)

  /** What the page ends with: the requests it sent, the text of its error
      banner, and where it navigated, if anywhere. */
  datatype Outcome = Outcome(calls: seq<Call>, registerError: string, navigatedTo: Option<string>)

  const PublishErrorPrefix := "Publish Data Blob Error: "
  const RegisterErrorPrefix := "Register Error: "
  const BrowsePath := "/browse"

  /** `handleRegisterSubmit` with its two mutations' handlers. The blob is the
      UTF-8 encoding of the image URL, published to the page's chain; the
      product is registered by the prefixed owner under the hash the publish
      returned. A failure sets the banner with that step's prefix and stops;
      success of both steps navigates to the browse page and leaves the
      banner as it was. */
  function SubmitRegistration(chainId: ChainId, owner: AccountOwner, productName: string, imageUrl: string,
                              publishReply: Reply<BlobHash>, registerReply: Reply<()>, registerError: string)
    : (r: Outcome)
    ensures |r.calls| >= 1 && r.calls[0] == PublishDataBlob(chainId, Utf8.Encode(imageUrl))
    ensures publishReply.Failed? ==>
              r == Outcome([PublishDataBlob(chainId, Utf8.Encode(imageUrl))],
                           PublishErrorPrefix + publishReply.message, None)
    ensures publishReply.Completed? ==>
              && |r.calls| == 2
              && r.calls[1] == RegisterMutation(ManufacturerContext.Normalize(owner), productName, publishReply.data)
    ensures publishReply.Completed? && registerReply.Failed? ==>
              r.registerError == RegisterErrorPrefix + registerReply.message && r.navigatedTo.None?
    ensures r.navigatedTo.Some? <==> publishReply.Completed? && registerReply.Completed?
    ensures r.navigatedTo.Some? ==> r.navigatedTo.value == BrowsePath && r.registerError == registerError
  {
    var publish := PublishDataBlob(chainId, Utf8.Encode(imageUrl));
    match publishReply
    case Failed(message) => Outcome([publish], PublishErrorPrefix + message, None)
    case Completed(blobHash) =>
      var register := RegisterMutation(ManufacturerContext.Normalize(owner), productName, blobHash);
      match registerReply
      case Failed(message) => Outcome([publish, register], RegisterErrorPrefix + message, None)
      case Completed(_) => Outcome([publish, register], registerError, Some(BrowsePath))
  }

  /** The published bytes are exactly the image URL: they decode back to it. */
  lemma PublishedBlobIsImageUrl(chainId: ChainId, owner: AccountOwner, productName: string, imageUrl: string,
                                publishReply: Reply<BlobHash>, registerReply: Reply<()>, registerError: string)
    ensures var r := SubmitRegistration(chainId, owner, productName, imageUrl, publishReply, registerReply,
                                        registerError);
            Utf8.Decode(r.calls[0].bytes) == Some(imageUrl)
  {
    Utf8.DecodeEncode(imageUrl);
  }

  /** Registration from the page, end to end: the register request the page
      sends becomes a `RegisterProduct` operation; run on the page's chain by
      the permitted owner after the blob was published, it stores a product
      with the page's name and blob, manufactured and owned by the prefixed
      owner, `Registered` with one checkpoint, listed in that owner's set and
      found by the product query under the text of its id. */
  lemma RegistrationReachesOwnedProducts(rt: Runtime, s: State, codec: Codec, readBlob: BlobHash -> seq<byte>,
                                         owner: AccountOwner, productName: string, imageUrl: string,
                                         blobHash: BlobHash, registerError: string)
    requires ValidCodec(codec) && StoredUnderOwnId(s)
    requires ManufacturerContext.Normalize(owner) in rt.permitted && blobHash in rt.publishedBlobs
    ensures var out := SubmitRegistration(rt.chainId, owner, productName, imageUrl, Completed(blobHash),
                                          Completed(()), registerError);
            var call := out.calls[1];
            var op := RegisterProductMutation(call.manufacturer, call.name, call.blobHash);
            var r := ExecuteOperation(rt, s, op);
            var t := NextTokenId(rt, s, call.manufacturer, productName, blobHash);
            r.Ok?
            && t in OwnedBy(r.value.state, ManufacturerContext.Normalize(owner))
            && t in r.value.state.products
            && var p := r.value.state.products[t];
            p.name == productName && p.blobHash == blobHash && p.status == Registered
            && p.owner == ManufacturerContext.Normalize(owner) && p.manufacturer == p.owner
            && |p.checkpoints| == 1 && p.verifications == []
            && var q := ProductQuery(r.value.state, codec, readBlob, codec.encode(t.id));
            q.Ok? && q.value.Some? && q.value.value.status == Registered
            && q.value.value.payload == readBlob(blobHash)
  {
    var owner' := ManufacturerContext.Normalize(owner);
    var op := Operation.RegisterProduct(owner', productName, blobHash);
    var r := ExecuteOperation(rt, s, op);
    var t := NextTokenId(rt, s, owner', productName, blobHash);
    assert r == Ok(Step(SupplyChainContract.RegisterProduct(rt, s, owner', productName, blobHash).value, []));
    assert StoredUnderOwnId(r.value.state);
    ProductQueryFindsStored(r.value.state, codec, readBlob, t);
  }
}
