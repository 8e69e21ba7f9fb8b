/** The application state kept on each chain: the products stored here, the
    index from custodian to the token ids it holds, and the registration
    counter. Account profiles are not modelled. */
module SupplyChainState {
  import opened SupplyChain

  datatype State = State(
    /** At most one product per token id. */
    products: map<TokenId, Product>,
    /** Each owner's token ids, as a set: an id appears at most once per owner. */
    ownedTokenIds: map<AccountOwner, set<TokenId>>,
    /** Products registered on this chain; only feeds the token-id digest. */
    numRegisteredProducts: nat)

  /** The state right after `instantiate`: empty storage, counter at zero. */
  function Instantiate(): (s: State)
    ensures s.numRegisteredProducts == 0
    ensures s.products == map[] && s.ownedTokenIds == map[]
  {
    State(map[], map[], 0)
  }

  /** An owner's token ids; an owner without an entry holds none. */
  function OwnedBy(s: State, owner: AccountOwner): (ids: set<TokenId>)
    ensures owner in s.ownedTokenIds ==> ids == s.ownedTokenIds[owner]
    ensures owner !in s.ownedTokenIds ==> ids == {}
  {
    if owner in s.ownedTokenIds then s.ownedTokenIds[owner] else {}
  }

  /** Every product is stored under its own token id. */
  ghost predicate StoredUnderOwnId(s: State)
  {
    forall t :: t in s.products ==> s.products[t].tokenId == t
  }

  /** The index agrees with the products' `owner` fields: a stored product is
      listed under its owner, and every listed id is a stored product held by
      that owner. */
  ghost predicate IndexConsistent(s: State)
  {
    && StoredUnderOwnId(s)
    && (forall t :: t in s.products ==>
          s.products[t].owner in s.ownedTokenIds && t in s.ownedTokenIds[s.products[t].owner])
    && (forall o, t :: o in s.ownedTokenIds && t in s.ownedTokenIds[o] ==>
          t in s.products && s.products[t].owner == o)
  }

  /** The intended meaning of the index: the set for owner `o` is exactly the
      token ids of the products `o` currently holds. */
  lemma OwnedSetIsExactlyHeld(s: State, owner: AccountOwner)
    requires IndexConsistent(s)
    ensures OwnedBy(s, owner) == set t | t in s.products && s.products[t].owner == owner
  {
    var held := set t | t in s.products && s.products[t].owner == owner;
    forall t | t in held
      ensures t in OwnedBy(s, owner)
    {
      assert s.products[t].owner in s.ownedTokenIds;
    }
  }

  lemma InstantiateIsConsistent()
    ensures IndexConsistent(Instantiate())
  {
  }
}
