/** The GraphQL service: read-only queries over the state, and mutations that
    schedule an operation. Token ids cross this boundary as base64 text; blob
    payloads are read through `readBlob`. */
module SupplyChainService {
  import opened Basics
  import opened SupplyChain
  import opened SupplyChainState

  /** Why a query panics: the text is not base64, or the owner index names a
      product that is not stored. */
  datatype QueryError = UndecodableTokenId(text: string) | MissingProduct(tokenId: TokenId)

  /** The text form of a stored product's own token id. */
  function KeyOf(s: State, codec: Codec, t: TokenId): string
    requires t in s.products
  {
    codec.encode(s.products[t].tokenId.id)
  }

  /** The keys a listing of the products `ids` has. */
  function ListingKeys(s: State, codec: Codec, ids: set<TokenId>): set<string>
    requires ids <= s.products.Keys
  {
    set t | t in ids :: KeyOf(s, codec, t)
  }

  /** The output the service builds for a stored product. */
  function OutputOf(s: State, codec: Codec, readBlob: BlobHash -> seq<byte>, t: TokenId): ProductOutput
    requires t in s.products
  {
    NewOutput(s.products[t], readBlob(s.products[t].blobHash), codec)
  }

  /** What a listing of the products `ids` means: one entry per product, keyed
      by the text of its token id, and nothing else. */
  ghost predicate Lists(m: map<string, ProductOutput>, s: State, codec: Codec, readBlob: BlobHash -> seq<byte>,
                        ids: set<TokenId>)
    requires ids <= s.products.Keys
  {
    && m.Keys == ListingKeys(s, codec, ids)
    && forall t :: t in ids ==> m[KeyOf(s, codec, t)] == OutputOf(s, codec, readBlob, t)
  }

  /** With a valid codec and products stored under their own ids, a listing is
      unique: the order in which entries are inserted cannot matter. */
  lemma ListingIsUnique(m1: map<string, ProductOutput>, m2: map<string, ProductOutput>, s: State, codec: Codec,
                        readBlob: BlobHash -> seq<byte>, ids: set<TokenId>)
    requires ids <= s.products.Keys
    requires Lists(m1, s, codec, readBlob, ids) && Lists(m2, s, codec, readBlob, ids)
    ensures m1 == m2
  {
    forall k | k in m1
      ensures m1[k] == m2[k]
    {
      var t :| t in ids && KeyOf(s, codec, t) == k;
    }
  }

  /** Builds the listing of `ids` the way the service's loops do, inserting
      one output per id; panics on an id without a stored product. */
  method CollectOutputs(s: State, codec: Codec, readBlob: BlobHash -> seq<byte>, ids: set<TokenId>)
    returns (r: Result<map<string, ProductOutput>, QueryError>)
    ensures r.Ok? <==> ids <= s.products.Keys
    ensures r.Err? ==> r.error.MissingProduct? && r.error.tokenId in ids && r.error.tokenId !in s.products
    ensures r.Ok? ==> r.value.Keys == ListingKeys(s, codec, ids)
    ensures r.Ok? && ValidCodec(codec) && StoredUnderOwnId(s) ==> Lists(r.value, s, codec, readBlob, ids)
  {
    var m: map<string, ProductOutput> := map[];
    var remaining := ids;
    while remaining != {}
      invariant remaining <= ids
      invariant ids - remaining <= s.products.Keys
      invariant m.Keys == ListingKeys(s, codec, ids - remaining)
      invariant ValidCodec(codec) && StoredUnderOwnId(s) ==>
                  forall t :: t in ids - remaining ==> m[KeyOf(s, codec, t)] == OutputOf(s, codec, readBlob, t)
      decreases remaining
    {
      var t :| t in remaining;
      if t !in s.products {
        return Err(MissingProduct(t));
      }
      var p := s.products[t];
      var o := NewOutput(p, readBlob(p.blobHash), codec);
      ghost var done := ids - remaining;
      if ValidCodec(codec) && StoredUnderOwnId(s) {
        forall u | u in done
          ensures KeyOf(s, codec, u) != o.tokenId
        {
          EncodeInjective(codec, s.products[u].tokenId.id, p.tokenId.id);
        }
      }
      m := m[o.tokenId := o];
      remaining := remaining - {t};
      assert ids - remaining == done + {t};
    }
    assert ids - remaining == ids;
    return Ok(m);
  }

  /** `product`: the text must decode (the service panics otherwise); an
      unknown id gives no product; the output keeps the text as given. */
  function ProductQuery(s: State, codec: Codec, readBlob: BlobHash -> seq<byte>, tokenIdText: string)
    : (r: Result<Option<ProductOutput>, QueryError>)
    ensures codec.decode(tokenIdText).None? <==> r == Err(UndecodableTokenId(tokenIdText))
    ensures r.Ok? ==>
              var t := TokenId(codec.decode(tokenIdText).value);
              (r.value.Some? <==> t in s.products)
              && (r.value.Some? ==>
                    r.value.value == NewOutputWithTokenId(tokenIdText, s.products[t], readBlob(s.products[t].blobHash)))
  {
    match codec.decode(tokenIdText)
    case None => Err(UndecodableTokenId(tokenIdText))
    case Some(bytes) =>
      var t := TokenId(bytes);
      if t in s.products then
        Ok(Some(NewOutputWithTokenId(tokenIdText, s.products[t], readBlob(s.products[t].blobHash))))
      else
        Ok(None)
  }

  /** Looking a product up by the text of its id finds it exactly when it is
      stored, and gives the same output as the listings. */
  lemma ProductQueryFindsStored(s: State, codec: Codec, readBlob: BlobHash -> seq<byte>, t: TokenId)
    requires ValidCodec(codec) && StoredUnderOwnId(s)
    ensures t in s.products ==>
              ProductQuery(s, codec, readBlob, codec.encode(t.id)) == Ok(Some(OutputOf(s, codec, readBlob, t)))
    ensures t !in s.products ==> ProductQuery(s, codec, readBlob, codec.encode(t.id)) == Ok(None)
  {
    assert codec.decode(codec.encode(t.id)) == Some(t.id);
  }

  /** `products`: every stored product, keyed by the text of its token id. */
  method ProductsQuery(s: State, codec: Codec, readBlob: BlobHash -> seq<byte>)
    returns (m: map<string, ProductOutput>)
    ensures m.Keys == ListingKeys(s, codec, s.products.Keys)
    ensures ValidCodec(codec) && StoredUnderOwnId(s) ==> Lists(m, s, codec, readBlob, s.products.Keys)
  {
    var r := CollectOutputs(s, codec, readBlob, s.products.Keys);
    m := r.value;
  }

  /** `owned_products`: the products in the owner's set, keyed by token id
      text; none for an owner without a set. It panics only when the index
      names a product that is not stored, which a consistent index never does;
      then every listed product is held by that owner. */
  method OwnedProducts(s: State, codec: Codec, readBlob: BlobHash -> seq<byte>, owner: AccountOwner)
    returns (r: Result<map<string, ProductOutput>, QueryError>)
    ensures owner !in s.ownedTokenIds ==> r == Ok(map[])
    ensures r.Ok? <==> OwnedBy(s, owner) <= s.products.Keys
    ensures IndexConsistent(s) ==> r.Ok?
    ensures r.Ok? ==> r.value.Keys == ListingKeys(s, codec, OwnedBy(s, owner))
    ensures r.Ok? && ValidCodec(codec) && StoredUnderOwnId(s) ==> Lists(r.value, s, codec, readBlob, OwnedBy(s, owner))
    ensures r.Ok? && ValidCodec(codec) && IndexConsistent(s) ==> forall k :: k in r.value ==> r.value[k].owner == owner
  {
    r := CollectOutputs(s, codec, readBlob, OwnedBy(s, owner));
    if owner !in s.ownedTokenIds {
      assert r.value.Keys == {};
    }
    if r.Ok? && ValidCodec(codec) && IndexConsistent(s) {
      forall k | k in r.value
        ensures r.value[k].owner == owner
      {
        var t :| t in OwnedBy(s, owner) && KeyOf(s, codec, t) == k;
      }
    }
  }

  /** `owned_token_ids_by_owner`: the text of each id in the owner's set;
      empty for an owner without a set. */
  function OwnedTokenIdsByOwner(s: State, codec: Codec, owner: AccountOwner): (r: set<string>)
    ensures owner !in s.ownedTokenIds ==> r == {}
    ensures forall t :: t in OwnedBy(s, owner) ==> codec.encode(t.id) in r
    ensures forall x :: x in r ==> exists t :: t in OwnedBy(s, owner) && x == codec.encode(t.id)
  {
    set t | t in OwnedBy(s, owner) :: codec.encode(t.id)
  }

  /** With a valid codec, a token id's text is listed for an owner exactly
      when the id is in that owner's set, so the listing loses nothing. */
  lemma OwnedTokenIdsByOwnerExact(s: State, codec: Codec, owner: AccountOwner, t: TokenId)
    requires ValidCodec(codec)
    ensures codec.encode(t.id) in OwnedTokenIdsByOwner(s, codec, owner) <==> t in OwnedBy(s, owner)
  {
    if codec.encode(t.id) in OwnedTokenIdsByOwner(s, codec, owner) {
      var u :| u in OwnedBy(s, owner) && codec.encode(u.id) == codec.encode(t.id);
      EncodeInjective(codec, u.id, t.id);
    }
  }

  /** `owned_token_ids`: the whole index with ids as text; it lists exactly
      the owners that have a set, and agrees with the per-owner query. */
  function OwnedTokenIds(s: State, codec: Codec): (r: map<AccountOwner, set<string>>)
    ensures r.Keys == s.ownedTokenIds.Keys
    ensures forall o :: o in r ==> r[o] == OwnedTokenIdsByOwner(s, codec, o)
  {
    map o | o in s.ownedTokenIds :: OwnedTokenIdsByOwner(s, codec, o)
  }

  // ---------------------------------------------------------------------------
  // Arguments the schema refuses

  /** Why the service refuses a request: a field its schema does not have, an
      enum argument it cannot read, token id text that is not base64, or
      owner or chain id text its scalars do not accept. */
  datatype Refusal =
    | UnknownField(field: string)
    | BadEnumValue(text: string)
    | BadTokenId(text: string)
    | BadScalar(text: string)

  /** The service's `AccountOwner` and `ChainId` scalars: typed text either
      parses to the value it names (hex digits in either case naming the same
      value) or is refused. */
  datatype Scalars = Scalars(parseOwner: string -> Option<AccountOwner>, parseChainId: string -> Option<ChainId>)

  /** The typed target account, read through the scalars. */
  function ParseAccount(scalars: Scalars, account: Account): (r: Result<Account, Refusal>)
    ensures r.Ok? <==> scalars.parseChainId(account.chainId).Some? && scalars.parseOwner(account.owner).Some?
    ensures r.Ok? ==> r.value == Account(scalars.parseChainId(account.chainId).value,
                                         scalars.parseOwner(account.owner).value)
  {
    match scalars.parseChainId(account.chainId)
    case None => Err(BadScalar(account.chainId))
    case Some(chainId) =>
      match scalars.parseOwner(account.owner)
      case None => Err(BadScalar(account.owner))
      case Some(owner) => Ok(Account(chainId, owner))
  }

  // ---------------------------------------------------------------------------
  // Mutations: each schedules one operation and returns an empty byte array.

  function RegisterProductMutation(manufacturer: AccountOwner, name: string, blobHash: BlobHash): (op: Operation)
    ensures op.RegisterProduct? && op.manufacturer == manufacturer && op.name == name && op.blobHash == blobHash
  {
    Operation.RegisterProduct(manufacturer, name, blobHash)
  }

  /** `transfer_custody`: the token id text must decode (the service panics
      otherwise). */
  function TransferCustodyMutation(codec: Codec, sourceOwner: AccountOwner, tokenIdText: string,
                                   targetAccount: Account): (r: Result<Operation, QueryError>)
    ensures codec.decode(tokenIdText).None? <==> r == Err(UndecodableTokenId(tokenIdText))
    ensures r.Ok? ==> r.value == Operation.TransferCustody(sourceOwner, TokenId(codec.decode(tokenIdText).value),
                                                           targetAccount)
  {
    match codec.decode(tokenIdText)
    case None => Err(UndecodableTokenId(tokenIdText))
    case Some(bytes) => Ok(Operation.TransferCustody(sourceOwner, TokenId(bytes), targetAccount))
  }

  /** `claim_product`, with the same decoding of the token id. */
  function ClaimProductMutation(codec: Codec, sourceAccount: Account, tokenIdText: string,
                                targetAccount: Account): (r: Result<Operation, QueryError>)
    ensures codec.decode(tokenIdText).None? <==> r == Err(UndecodableTokenId(tokenIdText))
    ensures r.Ok? ==> r.value == Operation.ClaimProduct(sourceAccount, TokenId(codec.decode(tokenIdText).value),
                                                        targetAccount)
  {
    match codec.decode(tokenIdText)
    case None => Err(UndecodableTokenId(tokenIdText))
    case Some(bytes) => Ok(Operation.ClaimProduct(sourceAccount, TokenId(bytes), targetAccount))
  }

  /** A token id text the service handed out names the same token when sent
      back in a transfer or a claim. */
  lemma MutationsRoundTripTokenId(codec: Codec, t: TokenId, sourceOwner: AccountOwner, sourceAccount: Account,
                                  targetAccount: Account)
    requires ValidCodec(codec)
    ensures TransferCustodyMutation(codec, sourceOwner, codec.encode(t.id), targetAccount)
              == Ok(Operation.TransferCustody(sourceOwner, t, targetAccount))
    ensures ClaimProductMutation(codec, sourceAccount, codec.encode(t.id), targetAccount)
              == Ok(Operation.ClaimProduct(sourceAccount, t, targetAccount))
  {
    assert codec.decode(codec.encode(t.id)) == Some(t.id);
  }
}
