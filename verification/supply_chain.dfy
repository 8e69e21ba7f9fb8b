/** The application's ABI: product status, checkpoints, verification records,
    token ids, products, operations, cross-chain messages and the output shape
    the service returns. */
module SupplyChain {
  import opened Basics
  import Utf8

  /** Account owners, chain ids, application ids and blob hashes are opaque to
      the application; each is represented by the string it displays as. */
  type AccountOwner = string
  type ChainId = string
  type ApplicationId = string
  type BlobHash = string

  /** Ledger time in microseconds. */
  type Timestamp = nat

  datatype ProductStatus = Registered | InTransit | Delivered | Verified | Rejected

  const AllStatuses: seq<ProductStatus> := [Registered, InTransit, Delivered, Verified, Rejected]

  /** `ProductStatus` has exactly five values, all distinct. */
  lemma ExactlyFiveStatuses()
    ensures |AllStatuses| == 5
    ensures forall st: ProductStatus :: st in AllStatuses
    ensures forall i, j :: 0 <= i < j < |AllStatuses| ==> AllStatuses[i] != AllStatuses[j]
  {
    forall st: ProductStatus
      ensures st in AllStatuses
    {
      match st
      case Registered => assert AllStatuses[0] == st;
      case InTransit => assert AllStatuses[1] == st;
      case Delivered => assert AllStatuses[2] == st;
      case Verified => assert AllStatuses[3] == st;
      case Rejected => assert AllStatuses[4] == st;
    }
  }

  /** An account on a given chain (`fungible::Account`). */
  datatype Account = Account(chainId: ChainId, owner: AccountOwner)

  /** One entry of a product's history. The ABI also declares an optional
      geographic location, which no code path ever sets; it is not modelled. */
  datatype Checkpoint = Checkpoint(
    timestamp: Timestamp,
    location: string,
    status: ProductStatus,
    party: AccountOwner,
    notes: Option<string>)

  datatype VerificationRecord = VerificationRecord(
    verifier: AccountOwner,
    timestamp: Timestamp,
    passed: bool,
    details: string)

  /** A product serial number: the bytes of a digest. */
  datatype TokenId = TokenId(id: seq<byte>)

  /** The derived `Ord` of `Vec<u8>`: lexicographic, and a proper prefix sorts
      first. It orders the token ids inside each owner's `BTreeSet`. */
  predicate BytesLe(a: seq<byte>, b: seq<byte>)
    decreases |a|
  {
    if |a| == 0 then true
    else if |b| == 0 then false
    else if a[0] != b[0] then a[0] < b[0]
    else BytesLe(a[1..], b[1..])
  }

  predicate TokenIdLe(x: TokenId, y: TokenId)
  {
    BytesLe(x.id, y.id)
  }

  lemma {:induction false} BytesLeReflexive(a: seq<byte>)
    ensures BytesLe(a, a)
    decreases |a|
  {
    if |a| > 0 {
      BytesLeReflexive(a[1..]);
    }
  }

  lemma {:induction false} BytesLeAntisymmetric(a: seq<byte>, b: seq<byte>)
    requires BytesLe(a, b) && BytesLe(b, a)
    ensures a == b
    decreases |a|
  {
    if |a| > 0 && |b| > 0 {
      BytesLeAntisymmetric(a[1..], b[1..]);
      assert a == [a[0]] + a[1..] && b == [b[0]] + b[1..];
    }
  }

  lemma {:induction false} BytesLeTransitive(a: seq<byte>, b: seq<byte>, c: seq<byte>)
    requires BytesLe(a, b) && BytesLe(b, c)
    ensures BytesLe(a, c)
    decreases |a|
  {
    if |a| > 0 && |b| > 0 && |c| > 0 && a[0] == b[0] && b[0] == c[0] {
      BytesLeTransitive(a[1..], b[1..], c[1..]);
    }
  }

  lemma {:induction false} BytesLeTotal(a: seq<byte>, b: seq<byte>)
    ensures BytesLe(a, b) || BytesLe(b, a)
    decreases |a|
  {
    if |a| > 0 && |b| > 0 && a[0] == b[0] {
      BytesLeTotal(a[1..], b[1..]);
    }
  }

  /** The order on token ids is a total order, and two ids are equal exactly
      when their byte vectors are. */
  lemma TokenIdOrderIsTotal(x: TokenId, y: TokenId, z: TokenId)
    ensures TokenIdLe(x, x)
    ensures TokenIdLe(x, y) && TokenIdLe(y, x) ==> x == y
    ensures TokenIdLe(x, y) && TokenIdLe(y, z) ==> TokenIdLe(x, z)
    ensures TokenIdLe(x, y) || TokenIdLe(y, x)
  {
    BytesLeReflexive(x.id);
    if TokenIdLe(x, y) && TokenIdLe(y, x) {
      BytesLeAntisymmetric(x.id, y.id);
    }
    if TokenIdLe(x, y) && TokenIdLe(y, z) {
      BytesLeTransitive(x.id, y.id, z.id);
    }
    BytesLeTotal(x.id, y.id);
  }

  datatype Product = Product(
    tokenId: TokenId,
    owner: AccountOwner,
    name: string,
    manufacturer: AccountOwner,
    blobHash: BlobHash,
    status: ProductStatus,
    checkpoints: seq<Checkpoint>,
    verifications: seq<VerificationRecord>)

  /** The operations the contract's dispatch handles. The ABI also declares
      `RegisterAccountProfile` and `UpdateAccountLocation`, which the dispatch
      has no arm for; they are not modelled. */
  datatype Operation =
    | RegisterProduct(manufacturer: AccountOwner, name: string, blobHash: BlobHash)
    | TransferCustody(sourceOwner: AccountOwner, tokenId: TokenId, targetAccount: Account)
    | ClaimProduct(sourceAccount: Account, tokenId: TokenId, targetAccount: Account)
    | UpdateStatus(tokenId: TokenId, newStatus: ProductStatus, location: string, notes: Option<string>)
    | AddCheckpoint(tokenId: TokenId, location: string, status: ProductStatus, notes: Option<string>)
    | VerifyProduct(tokenId: TokenId, passed: bool, details: string)
    | RejectProduct(tokenId: TokenId, reason: string)

  /** A cross-chain message. A custody transfer carries the whole product, so
      its checkpoints and verifications travel with it. */
  datatype Message =
    | TransferCustody(product: Product, targetAccount: Account)
    | ClaimProduct(sourceAccount: Account, tokenId: TokenId, targetAccount: Account)

  /** What the service returns for a product: the token id as text and the
      blob's bytes in place of its hash. */
  datatype ProductOutput = ProductOutput(
    tokenId: string,
    owner: AccountOwner,
    name: string,
    manufacturer: AccountOwner,
    payload: seq<byte>,
    status: ProductStatus,
    checkpoints: seq<Checkpoint>,
    verifications: seq<VerificationRecord>)

  /** The text form of token ids: base64 with the standard alphabet and no
      padding (section 4 of RFC 4648), as a library call. */
  datatype Codec = Codec(encode: seq<byte> -> string, decode: string -> Option<seq<byte>>)

  /** What the model relies on about that library: decoding inverts encoding,
      and a string that decodes is the canonical encoding of its bytes. */
  ghost predicate ValidCodec(codec: Codec)
  {
    && (forall b :: codec.decode(codec.encode(b)) == Some(b))
    && (forall s :: codec.decode(s).Some? ==> codec.encode(codec.decode(s).value) == s)
  }

  /** Under a valid codec, distinct byte vectors have distinct encodings. */
  lemma EncodeInjective(codec: Codec, a: seq<byte>, b: seq<byte>)
    requires ValidCodec(codec)
    ensures codec.encode(a) == codec.encode(b) <==> a == b
  {
    if codec.encode(a) == codec.encode(b) {
      assert codec.decode(codec.encode(a)) == Some(a);
      assert codec.decode(codec.encode(b)) == Some(b);
    }
  }

  /** `ProductOutput::new`: every field of the product but its blob hash is
      copied, the payload is attached, and the token id is its encoding. */
  function NewOutput(product: Product, payload: seq<byte>, codec: Codec): (o: ProductOutput)
    ensures o.tokenId == codec.encode(product.tokenId.id)
    ensures o.payload == payload
    ensures o.owner == product.owner && o.name == product.name
    ensures o.manufacturer == product.manufacturer && o.status == product.status
    ensures o.checkpoints == product.checkpoints && o.verifications == product.verifications
  {
    NewOutputWithTokenId(codec.encode(product.tokenId.id), product, payload)
  }

  /** `ProductOutput::new_with_token_id`: as `NewOutput`, with the given text
      used verbatim as the token id. */
  function NewOutputWithTokenId(tokenId: string, product: Product, payload: seq<byte>): (o: ProductOutput)
    ensures o.tokenId == tokenId && o.payload == payload
    ensures o.owner == product.owner && o.name == product.name
    ensures o.manufacturer == product.manufacturer && o.status == product.status
    ensures o.checkpoints == product.checkpoints && o.verifications == product.verifications
  {
    ProductOutput(tokenId, product.owner, product.name, product.manufacturer, payload,
                  product.status, product.checkpoints, product.verifications)
  }

  /** An output loses only the blob hash: under a valid codec, two products
      with equal outputs agree on every other field. */
  lemma OutputDeterminesProduct(p: Product, q: Product, payload: seq<byte>, codec: Codec)
    requires ValidCodec(codec)
    requires NewOutput(p, payload, codec) == NewOutput(q, payload, codec)
    ensures p == q.(blobHash := p.blobHash)
  {
    EncodeInjective(codec, p.tokenId.id, q.tokenId.id);
  }

  /** What `create_token_id` feeds into the hasher, in order: chain id,
      application id, name, the name's length in bytes, manufacturer, blob hash
      and the registration counter. */
  datatype TokenSeed = TokenSeed(
    chainId: ChainId,
    applicationId: ApplicationId,
    name: string,
    nameLength: nat,
    manufacturer: AccountOwner,
    blobHash: BlobHash,
    numRegisteredProducts: nat)

  /** `Product::create_token_id`, with the SHA3-256 digest of the BCS bytes
      given as `digest`. */
  function CreateTokenId(digest: TokenSeed -> TokenId, chainId: ChainId, applicationId: ApplicationId,
                         name: string, manufacturer: AccountOwner, blobHash: BlobHash,
                         numRegisteredProducts: nat): (t: TokenId)
    ensures CollisionFree(digest) ==>
              forall seed :: digest(seed) == t ==>
                && seed.chainId == chainId && seed.applicationId == applicationId
                && seed.name == name && seed.nameLength == |Utf8.Encode(name)|
                && seed.manufacturer == manufacturer && seed.blobHash == blobHash
                && seed.numRegisteredProducts == numRegisteredProducts
  {
    digest(TokenSeed(chainId, applicationId, name, |Utf8.Encode(name)|, manufacturer, blobHash,
                     numRegisteredProducts))
  }

  /** A digest without collisions on the seeds it is applied to. */
  ghost predicate CollisionFree(digest: TokenSeed -> TokenId)
  {
    forall a, b :: digest(a) == digest(b) ==> a == b
  }

  /** Token ids are a deterministic function of their inputs, and with a
      collision-free digest two different inputs (in particular two values of
      the registration counter) never share an id. */
  lemma TokenIdsAreDistinct(digest: TokenSeed -> TokenId, chainId: ChainId, applicationId: ApplicationId,
                            name1: string, manufacturer1: AccountOwner, blobHash1: BlobHash, n1: nat,
                            name2: string, manufacturer2: AccountOwner, blobHash2: BlobHash, n2: nat)
    requires CollisionFree(digest)
    ensures CreateTokenId(digest, chainId, applicationId, name1, manufacturer1, blobHash1, n1)
              == CreateTokenId(digest, chainId, applicationId, name2, manufacturer2, blobHash2, n2)
            <==> (name1, manufacturer1, blobHash1, n1) == (name2, manufacturer2, blobHash2, n2)
  {
    var s1 := TokenSeed(chainId, applicationId, name1, |Utf8.Encode(name1)|, manufacturer1, blobHash1, n1);
    var s2 := TokenSeed(chainId, applicationId, name2, |Utf8.Encode(name2)|, manufacturer2, blobHash2, n2);
    assert CreateTokenId(digest, chainId, applicationId, name1, manufacturer1, blobHash1, n1) == digest(s1);
    assert CreateTokenId(digest, chainId, applicationId, name2, manufacturer2, blobHash2, n2) == digest(s2);
  }
}
