# Supply chain application: a Dafny model

This project models the supply-chain application for Linera microchains, together with the pure rules of its web front end.

The on-chain part stores products by token id. Each product has an owner (its custodian), a status and two append-only histories: checkpoints and verification records. The state also keeps an index from each custodian to the token ids it holds, and a registration counter that feeds the token-id digest. The contract:

- registers products under a digest-derived token id;
- transfers custody on one chain, or across chains by a tracked message that may bounce;
- handles remote claims;
- records status updates, checkpoints, verifications and rejections.

The GraphQL service lists products and the owner index, with token ids as base64 text, and schedules operations.

The front end models four pieces:

- the browser-side table of manufacturer names;
- the manufacturer registry form;
- the two-step registration (publish the image URL as a data blob, then register under the blob's hash);
- the browse page's dialogs, requests, error banners and refreshes.

Modules, in dependency order:

| file | module | models |
|---|---|---|
| `basics.dfy` | `Basics` | `Option`, `Result`, bytes, string prefix |
| `utf8.dfy` | `Utf8` | UTF-8 (sections 3 and 4 of RFC 3629), the byte form `String::len` counts and `TextEncoder` produces; the decoder refuses overlong forms, surrogates and values past U+10FFFF |
| `supply_chain.dfy` | `SupplyChain` | `lib.rs`: the ABI types, token-id order, `ProductOutput`, `create_token_id` |
| `state.dfy` | `SupplyChainState` | `state.rs`: the state and its index invariant |
| `contract.dfy` | `SupplyChainContract` | `contract.rs`: every operation and message |
| `contract_properties.dfy` | `ContractProperties` | invariants and multi-step properties of the contract |
| `service.dfy` | `SupplyChainService` | `service.rs`: queries and mutations |
| `manufacturer_context.dfy` | `ManufacturerContext` | `ManufacturerContext.js` |
| `manufacturer_registry.dfy` | `ManufacturerRegistry` | `ManufacturerRegistry.js` |
| `register_product_page.dfy` | `RegisterProductPage` | `RegisterProduct.js` |
| `browse_products_page.dfy` | `BrowseProductsPage` | `BrowseProducts.js` |

Modelling choices:

- **Panics.** A panic aborts the transaction. It is modelled as `Err(...)` of an `Abort` value naming the failed check, and the state is left as it was. This covers a failed `expect`, an `assert_eq!`, a missing blob and a missing owner set.
- **Runtime services.** These are fields of a `Runtime` value: the chain and application ids, the block time, the set of owners whose permission check passes, the published blobs and the SHA3-256 digest. Sent messages are returned as values.
- **Base64.** The base64 library (STANDARD_NO_PAD, section 4 of RFC 4648) is a `Codec` parameter. The only assumption about it is `ValidCodec`: decoding inverts encoding, and whatever decodes is canonical.
- **Strings for opaque ids.** Owners, chain ids, application ids and blob hashes are the strings they display as.
- **Owner and chain id scalars.** The GraphQL service reads typed `AccountOwner` and `ChainId` text through a `Scalars` parameter (`SupplyChainService.Scalars`). Each of its two parsers either refuses the text or returns the value it names, so hex in either case may name the same value. Their hex and length grammar is not modelled.

Behaviour worth noting:

- A new product starts with one `Registered` checkpoint.
- `reject_product` appends a checkpoint and no verification record.
- No status transition is checked: any status may follow any other.
- The browse page calls `addCheckpoint`, `updateStatus`, `verifyProduct` and `rejectProduct` mutations and `productHistory`/`verificationRecords` queries, none of which `service.rs` defines (see Findings).

## Model

Source paths are relative to the repository root.

| member | source | states |
|---|---|---|
| SupplyChain.ExactlyFiveStatuses | examples/supply-chain/src/lib.rs:20-32 | a product status is one of exactly five distinct values |
| SupplyChain.TokenIdOrderIsTotal | examples/supply-chain/src/lib.rs:93-99 | the derived order on token ids (byte-wise lexicographic, prefix first), which orders each owner's `BTreeSet`, is reflexive, antisymmetric, transitive and total |
| SupplyChain.BytesLeTransitive | examples/supply-chain/src/lib.rs:93-99 | the byte-vector order is transitive |
| SupplyChain.BytesLeAntisymmetric | examples/supply-chain/src/lib.rs:93-99 | two byte vectors ordered both ways are equal |
| SupplyChain.BytesLeTotal | examples/supply-chain/src/lib.rs:93-99 | any two byte vectors are ordered one way or the other |
| SupplyChain.BytesLeReflexive | examples/supply-chain/src/lib.rs:93-99 | every byte vector is ordered before itself |
| SupplyChain.NewOutput | examples/supply-chain/src/lib.rs:225-238 | the output's token id is the base64 text of the product's id, the payload is attached, and owner, name, manufacturer, status and both histories are copied |
| SupplyChain.NewOutputWithTokenId | examples/supply-chain/src/lib.rs:240-251 | the output keeps the given text as token id, attaches the payload and copies owner, name, manufacturer, status and both histories |
| SupplyChain.OutputDeterminesProduct | examples/supply-chain/src/lib.rs:225-238 | under a valid codec, an output loses only the blob hash: equal outputs come from products equal in every other field |
| SupplyChain.EncodeInjective | examples/supply-chain/src/lib.rs:225-238 | under a valid codec, two token ids have the same text exactly when their bytes are equal |
| SupplyChain.TokenIdsAreDistinct | examples/supply-chain/src/lib.rs:261-283 | with a collision-free digest, two token ids on one chain and application coincide exactly when name, manufacturer, blob hash and counter all do |
| SupplyChain.CreateTokenId | examples/supply-chain/src/lib.rs:261-283 | with a collision-free digest, an id determines everything hashed into it: chain, application, name, the name's UTF-8 byte length, manufacturer, blob hash and counter |
| Utf8.Width | examples/supply-chain/src/lib.rs:275 | a character takes one to four bytes, one exactly when it is ASCII |
| Utf8.EncodeChar | examples/supply-chain/src/lib.rs:274-275 | a character encodes to `Width` bytes: ASCII to itself, otherwise a lead byte followed by continuation bytes |
| Utf8.Encode | examples/supply-chain/src/lib.rs:274-275 | a string's byte length is at least its character count, and an ASCII string encodes to its own code points |
| Utf8.DecodeEncode | examples/supply-chain/web-frontend/src/pages/RegisterProduct.js:91-92 | decoding undoes encoding for every string, so the published blob determines the URL |
| Utf8.DecodedCharIsEncoding | examples/supply-chain/web-frontend/src/pages/RegisterProduct.js:91-92 | the bytes the decoder takes for one character are exactly that character's encoding, so overlong forms are refused |
| Utf8.EncodeDecode | examples/supply-chain/web-frontend/src/pages/RegisterProduct.js:91-92 | whatever the decoder accepts is the encoding of the string it returns: decoding and encoding are inverse on well-formed UTF-8 |
| Utf8.EncodeInjective | examples/supply-chain/src/lib.rs:274-275 | two strings with the same UTF-8 bytes are equal |
| SupplyChainState.Instantiate | examples/supply-chain/src/contract.rs:44-48 | a fresh application has no products, an empty index and counter zero |
| SupplyChainState.InstantiateIsConsistent | examples/supply-chain/src/contract.rs:44-48 | the initial state satisfies the index invariant |
| SupplyChainState.OwnedBy | examples/supply-chain/src/state.rs:19-20 | an owner without an entry in the index holds no token ids |
| SupplyChainState.OwnedSetIsExactlyHeld | examples/supply-chain/src/state.rs:19-20 | under the invariant, an owner's set is exactly the ids of the stored products whose `owner` is that owner |
| SupplyChainContract.GetProduct | examples/supply-chain/src/contract.rs:252-259 | a stored id gives its product; any other id aborts with "product not found" |
| SupplyChainContract.AddProduct | examples/supply-chain/src/contract.rs:317-341 | the product is stored under its id, its id joins its owner's set (created if absent), no other product or owner set changes, and the counter is untouched |
| SupplyChainContract.RemoveProduct | examples/supply-chain/src/contract.rs:343-357 | aborts exactly when the owner has no set; otherwise deletes the product and drops its id from its owner's set only, leaving an emptied set in place |
| SupplyChainContract.Store | examples/supply-chain/src/contract.rs:380-384 | writes the product back under its id, leaving every other product, the index and the counter unchanged |
| SupplyChainContract.NextTokenId | examples/supply-chain/src/contract.rs:265-273 | with a collision-free digest, no other value of the registration counter would give the same id for the same inputs |
| SupplyChainContract.RegisterProduct | examples/supply-chain/src/contract.rs:261-298 | succeeds exactly when the blob was published; the new product, under the digest id, is owned and manufactured by the caller, `Registered`, with one `Registered` checkpoint by the caller at block time and no verifications, is indexed under the caller, and the counter grows by one; nothing else changes |
| SupplyChainContract.TransferCustody | examples/supply-chain/src/contract.rs:208-250 | fails exactly when the owner has no set. On the same chain the product gets the target owner, `Delivered`, and the checkpoints `InTransit` by the old owner and `Delivered` by the target, and is indexed under the target, with no message. Across chains the product leaves this chain and one tracked message carries it, `InTransit` with the transit checkpoint, to the target chain. The old owner's set loses the id, the target's set (on the same chain) gains it, and every other owner's set, every other product and the counter are untouched |
| SupplyChainContract.UpdateProductStatus | examples/supply-chain/src/contract.rs:360-385 | sets the status and appends exactly one checkpoint with that status, location and notes by the current owner at block time; nothing else about the product changes |
| SupplyChainContract.AddCheckpoint | examples/supply-chain/src/contract.rs:388-412 | appends exactly one checkpoint by the current owner and also overwrites the status with the checkpoint's status; nothing else changes |
| SupplyChainContract.VerifyProduct | examples/supply-chain/src/contract.rs:415-458 | appends one verification record by the owner and one checkpoint at "Chain <id>"; status and checkpoint become `Verified` with note "Verification passed: …" when it passed, `Rejected` with "Verification failed: …" otherwise |
| SupplyChainContract.RejectProduct | examples/supply-chain/src/contract.rs:461-480 | status `Rejected`, one checkpoint noted "Rejected: <reason>", and no verification record |
| SupplyChainContract.UpdateStored | examples/supply-chain/src/contract.rs:97-150 | the four product updates abort on an unknown id, and otherwise store the updated product and send nothing |
| SupplyChainContract.CheckedTransfer | examples/supply-chain/src/contract.rs:63-95 | a transfer aborts on an unknown id or when the claimed owner is not the current owner, and is otherwise the custody transfer of the stored product |
| SupplyChainContract.ExecuteOperation | examples/supply-chain/src/contract.rs:50-152 | an operation that acts on a stored product aborts when its id is unknown. Registration succeeds exactly when the manufacturer is permitted and the blob is published. A successful transfer was by the permitted current owner. A permitted transfer, and a permitted claim made on this chain, are the checked transfer by the source owner: they abort on an unknown id or a non-owner and otherwise hand the product over. A claim for a product on another chain changes nothing here and sends one authenticated, untracked claim message to that chain. Only transfers and claims send messages |
| SupplyChainContract.ExecuteMessage | examples/supply-chain/src/contract.rs:154-198 | a delivered transfer message stores the product with the target owner, `Delivered` and a "Delivered (cross-chain)" checkpoint by the target, indexed under the target. A bounced one re-adds the product unchanged under its old owner. Either way only that product and its new holder's set change, and the counter does not. A claim message needs the source owner's permission and then runs the checked transfer |
| ContractProperties.AddPreservesIndex | examples/supply-chain/src/contract.rs:317-341 | adding a product with a new id keeps the index consistent with the owners |
| ContractProperties.RemovePreservesIndex | examples/supply-chain/src/contract.rs:343-357 | removing a stored product by its owner succeeds, keeps the index consistent and leaves the id unstored |
| ContractProperties.StorePreservesIndex | examples/supply-chain/src/contract.rs:380-384 | writing back a product with an unchanged owner keeps the index consistent |
| ContractProperties.RemoveUndoesAdd | examples/supply-chain/src/contract.rs:317-357 | removing a product just added (new id, owner already indexed) restores the state exactly |
| ContractProperties.AddUndoesRemove | examples/supply-chain/src/contract.rs:317-357 | re-adding a stored product just removed restores the state exactly |
| ContractProperties.TransferPreservesIndex | examples/supply-chain/src/contract.rs:208-250 | a custody transfer of a stored product succeeds and keeps the index consistent, on one chain or across chains |
| ContractProperties.CheckedTransferPreservesIndex | examples/supply-chain/src/contract.rs:63-95 | a successful checked transfer keeps the index consistent |
| ContractProperties.OperationPreservesIndex | examples/supply-chain/src/contract.rs:50-152 | every successful operation keeps the owner index consistent with the products' owners, provided a registration's digest id is not already stored |
| ContractProperties.MessagePreservesIndex | examples/supply-chain/src/contract.rs:154-198 | every successful message keeps the index consistent, provided an arriving product is not already stored on this chain |
| ContractProperties.OperationExtendsHistories | examples/supply-chain/src/contract.rs:50-152 | after any operation, every product still stored keeps its id, name, manufacturer and blob, and its checkpoints and verifications extend the old ones; a product sent away extends the stored one |
| ContractProperties.TransferExtendsHistories | examples/supply-chain/src/contract.rs:208-250 | a custody transfer keeps every product still stored, and the one it sends away, as extensions of the stored versions |
| ContractProperties.MessageExtendsHistory | examples/supply-chain/src/contract.rs:156-182 | a product received by custody transfer is stored as an extension of the one the message carried |
| ContractProperties.OperationOutcome | examples/supply-chain/src/contract.rs:63-150 | the status each successful operation leaves on its product and how many checkpoints (one, or two for a same-chain transfer) and verification records (one only for a verification) it appends; a cross-chain transfer leaves the product off this chain and sends it `InTransit` with one more checkpoint. A claim made on the product's own chain has the same outcome as a transfer |
| ContractProperties.AddCheckpointMatchesUpdateStatus | examples/supply-chain/src/contract.rs:360-412 | adding a checkpoint and updating the status to the same status have the same effect |
| ContractProperties.ConsecutiveRegistrationsDiffer | examples/supply-chain/src/contract.rs:266-297 | with a collision-free digest, the id the next registration gets differs from the one just given, because the counter moved |
| ContractProperties.CrossChainTransferDelivers | examples/supply-chain/src/contract.rs:156-250 | a cross-chain transfer followed by delivery leaves the product on the target chain with the target owner, `Delivered`, the same verifications, and exactly the transit and delivery checkpoints added, indexed under the target |
| ContractProperties.BouncedTransferReturnsProduct | examples/supply-chain/src/contract.rs:156-250 | a cross-chain transfer whose tracked message bounces brings the product back to its old owner, `InTransit`, keeping the transit checkpoint, with the index consistent |
| SupplyChainService.ListingIsUnique | examples/supply-chain/src/service.rs:90-105 | under a valid codec, a listing of products keyed by id text is unique, so iteration order cannot change it |
| SupplyChainService.CollectOutputs | examples/supply-chain/src/service.rs:148-159 | the listing loop fails exactly when an id is not stored, naming such an id; otherwise its keys are the texts of the ids, and under a valid codec each maps to that product's output |
| SupplyChainService.ProductQuery | examples/supply-chain/src/service.rs:72-88 | text that is not base64 makes the query fail; otherwise it answers with a product exactly when the decoded id is stored, keeping the text as given |
| SupplyChainService.ProductQueryFindsStored | examples/supply-chain/src/service.rs:72-88 | under a valid codec, querying the text of an id finds the product exactly when it is stored, and agrees with the listings' output |
| SupplyChainService.ProductsQuery | examples/supply-chain/src/service.rs:90-105 | every stored product appears once, keyed by the text of its id |
| SupplyChainService.OwnedProducts | examples/supply-chain/src/service.rs:139-162 | an owner without a set gets an empty map. The query fails only when the index names an unstored product, which a consistent index never does. The keys are the texts of the owner's ids, and every listed product is held by that owner |
| SupplyChainService.OwnedTokenIdsByOwner | examples/supply-chain/src/service.rs:107-117 | an owner without a set gets no ids; the listed texts are exactly the texts of the ids in the set |
| SupplyChainService.OwnedTokenIdsByOwnerExact | examples/supply-chain/src/service.rs:107-117 | under a valid codec, an id's text is listed exactly when the id is in the owner's set |
| SupplyChainService.OwnedTokenIds | examples/supply-chain/src/service.rs:119-137 | lists exactly the owners with a set, each agreeing with the per-owner query |
| SupplyChainService.RegisterProductMutation | examples/supply-chain/src/service.rs:171-179 | schedules a registration with the given manufacturer, name and blob |
| SupplyChainService.TransferCustodyMutation | examples/supply-chain/src/service.rs:181-196 | fails exactly when the id text does not decode; otherwise schedules the transfer of the decoded id |
| SupplyChainService.ClaimProductMutation | examples/supply-chain/src/service.rs:198-213 | fails exactly when the id text does not decode; otherwise schedules the claim of the decoded id |
| SupplyChainService.MutationsRoundTripTokenId | examples/supply-chain/src/service.rs:181-213 | an id text the service handed out names the same token when sent back in a transfer or a claim |
| ManufacturerContext.Normalize | examples/supply-chain/web-frontend/src/context/ManufacturerContext.js:29 | the result always has the `0x` prefix; it equals the input exactly when the input had it, and otherwise the input follows the prefix |
| ManufacturerContext.NormalizeIdempotent | examples/supply-chain/web-frontend/src/context/ManufacturerContext.js:29 | normalising twice is normalising once |
| ManufacturerContext.NormalizeIgnoresPrefix | examples/supply-chain/web-frontend/src/context/ManufacturerContext.js:29 | an address with or without its `0x` prefix normalises to the same key |
| ManufacturerContext.KeysOf | examples/supply-chain/web-frontend/src/context/ManufacturerContext.js:51-56 | the object's keys, one per entry, in entry order |
| ManufacturerContext.Lookup | examples/supply-chain/web-frontend/src/context/ManufacturerContext.js:48 | a property read gives nothing exactly when the key is absent |
| ManufacturerContext.LookupFindsEntry | examples/supply-chain/web-frontend/src/context/ManufacturerContext.js:48 | with distinct keys, reading an entry's key gives that entry's value |
| ManufacturerContext.Put | examples/supply-chain/web-frontend/src/context/ManufacturerContext.js:30-33 | a spread-and-set adds at most one entry |
| ManufacturerContext.PutKeys | examples/supply-chain/web-frontend/src/context/ManufacturerContext.js:30-33 | an existing key keeps its position; a new key goes last |
| ManufacturerContext.PutLookup | examples/supply-chain/web-frontend/src/context/ManufacturerContext.js:30-33 | the set key reads as the new value, every other key as before |
| ManufacturerContext.PutDistinct | examples/supply-chain/web-frontend/src/context/ManufacturerContext.js:30-33 | setting a key keeps the keys distinct |
| ManufacturerContext.Delete | examples/supply-chain/web-frontend/src/context/ManufacturerContext.js:38-42 | deleting a key keeps exactly the entries with other keys, and deleting an absent key leaves the entries as they were |
| ManufacturerContext.DeleteKeys | examples/supply-chain/web-frontend/src/context/ManufacturerContext.js:38-42 | after deletion, the keys are the old keys except the deleted one |
| ManufacturerContext.DeleteLookup | examples/supply-chain/web-frontend/src/context/ManufacturerContext.js:38-42 | the deleted key reads as absent, every other key as before |
| ManufacturerContext.DeleteDistinct | examples/supply-chain/web-frontend/src/context/ManufacturerContext.js:38-42 | deleting keeps the keys distinct |
| ManufacturerContext.DeleteKeepsOrder | examples/supply-chain/web-frontend/src/context/ManufacturerContext.js:38-42 | the entries left after a deletion are a subsequence of the old ones: the object keeps the insertion order of the remaining keys |
| ManufacturerContext.AddManufacturer | examples/supply-chain/web-frontend/src/context/ManufacturerContext.js:27-34 | the name is stored under the prefixed address, keeping keys distinct and all prefixed |
| ManufacturerContext.RemoveManufacturer | examples/supply-chain/web-frontend/src/context/ManufacturerContext.js:36-43 | the prefixed address becomes absent; exactly the entries under other keys remain, in their old order; removing an unknown address changes nothing |
| ManufacturerContext.GetManufacturerName | examples/supply-chain/web-frontend/src/context/ManufacturerContext.js:45-49 | a missing or empty address, an unknown address and a stored empty name all give nothing; otherwise the stored name under the prefixed address |
| ManufacturerContext.GetAfterAdd | examples/supply-chain/web-frontend/src/context/ManufacturerContext.js:27-49 | after adding a non-empty name, the address reads back as it, typed with or without `0x`; every other address reads as before |
| ManufacturerContext.GetAfterRemove | examples/supply-chain/web-frontend/src/context/ManufacturerContext.js:36-49 | after removal the address reads as unknown, typed with or without `0x`; every other address reads as before |
| ManufacturerContext.RemoveKeepsKeysCanonical | examples/supply-chain/web-frontend/src/context/ManufacturerContext.js:36-43 | removal keeps every key prefixed |
| ManufacturerContext.GetAllManufacturers | examples/supply-chain/web-frontend/src/context/ManufacturerContext.js:51-56 | one row per entry in the object's order: row i is entry i's address and name, so each row's address is a stored key, and with distinct keys each row's name is the name stored for it |
| ManufacturerRegistry.ValidName | examples/supply-chain/web-frontend/src/pages/ManufacturerRegistry.js:119-124 | the name passes `required` and `min: 2` exactly when it is present with at least two characters, counted as code points as the validator counts them |
| ManufacturerRegistry.ValidatorLengthCountsCodePoints | examples/supply-chain/web-frontend/src/pages/ManufacturerRegistry.js:123 | the length the form validator measures on a string's UTF-16 form, where a surrogate pair counts once, is the string's number of code points |
| ManufacturerRegistry.NameRuleIsValidatorRule | examples/supply-chain/web-frontend/src/pages/ManufacturerRegistry.js:119-124 | for every name, `ValidName` holds exactly when the name is present and its UTF-16 form has a validator length of at least 2 |
| ManufacturerRegistry.NameRuleCountsCharacters | examples/supply-chain/web-frontend/src/pages/ManufacturerRegistry.js:123 | a single emoji is refused and two are accepted; one letter, an empty name and a missing name are refused, two letters accepted |
| ManufacturerRegistry.ValidAddress | examples/supply-chain/web-frontend/src/pages/ManufacturerRegistry.js:129-138 | the address passes exactly when it is 64 hex digits with or without a `0x` prefix, and then it normalises to `0x` followed by those digits |
| ManufacturerRegistry.AddressPatternMeaning | examples/supply-chain/web-frontend/src/pages/ManufacturerRegistry.js:135 | the address check accepts exactly an optional `0x` followed by 64 hex digits |
| ManufacturerRegistry.ValidAddressNormalizes | examples/supply-chain/web-frontend/src/pages/ManufacturerRegistry.js:135 | an accepted address always normalises to `0x` followed by its 64 hex digits |
| ManufacturerRegistry.Submit | examples/supply-chain/web-frontend/src/pages/ManufacturerRegistry.js:17-30 | with both fields valid, the name is stored under the address and the modal closes with its fields reset; otherwise nothing changes |
| ManufacturerRegistry.SubmitThenLookup | examples/supply-chain/web-frontend/src/pages/ManufacturerRegistry.js:22-30 | after a valid submission the typed address reads back as the submitted name |
| ManufacturerRegistry.DeleteRow | examples/supply-chain/web-frontend/src/pages/ManufacturerRegistry.js:32-35 | deleting a row leaves its address absent, the other entries in their order, and the modal and form as they were |
| ManufacturerRegistry.DeleteRowRemovesExactlyIt | examples/supply-chain/web-frontend/src/pages/ManufacturerRegistry.js:57 | a row's address is already prefixed, so deleting the row removes exactly that entry and keeps all others in order |
| RegisterProductPage.SubmitRegistration | examples/supply-chain/web-frontend/src/pages/RegisterProduct.js:69-127 | the page first publishes the URL's UTF-8 bytes to its chain. A failed publish sets "Publish Data Blob Error: …" and stops. Otherwise it registers under the prefixed owner, the entered name and exactly the returned hash. A failed registration sets "Register Error: …". It navigates to `/browse` exactly when both steps complete |
| RegisterProductPage.PublishedBlobIsImageUrl | examples/supply-chain/web-frontend/src/pages/RegisterProduct.js:91-101 | the published bytes decode back to the image URL |
| RegisterProductPage.RegistrationReachesOwnedProducts | examples/supply-chain/web-frontend/src/pages/RegisterProduct.js:95-115 | the page's registration, executed by the permitted owner with the blob published, stores a `Registered` product with the page's name and blob, one checkpoint and the prefixed owner as owner and manufacturer. It is listed in that owner's set and found by the product query with the blob as payload |
| BrowseProductsPage.ParseWireToken | examples/supply-chain/web-frontend/src/pages/BrowseProducts.js:706-710 | a status token that is read back is the token of the status read |
| BrowseProductsPage.WireTokenRoundTrip | examples/supply-chain/web-frontend/src/pages/BrowseProducts.js:706-710 | every status's select token reads back as that status |
| BrowseProductsPage.ParseDisplayName | examples/supply-chain/web-frontend/src/pages/BrowseProducts.js:144-153 | a displayed status name that is read back is the name of the status read |
| BrowseProductsPage.DisplayNameRoundTrip | examples/supply-chain/web-frontend/src/pages/BrowseProducts.js:144-153 | every status's displayed name reads back as that status |
| BrowseProductsPage.GetStatusColor | examples/supply-chain/web-frontend/src/pages/BrowseProducts.js:144-153 | the colour is `default` exactly when the text is not a displayed status name |
| BrowseProductsPage.StatusColoursAreDistinct | examples/supply-chain/web-frontend/src/pages/BrowseProducts.js:144-153 | each status has its own colour and none gets `default`, while the enum-style tokens all fall back to `default` |
| BrowseProductsPage.QueryOwner | examples/supply-chain/web-frontend/src/pages/BrowseProducts.js:208 | the owned-products query asks about an already-prefixed owner |
| BrowseProductsPage.Mount | examples/supply-chain/web-frontend/src/pages/BrowseProducts.js:289-291 | the first render issues the owned-products query once, and later renders do not |
| BrowseProductsPage.OnNotification | examples/supply-chain/web-frontend/src/pages/BrowseProducts.js:293-297 | a notification re-runs the owned-products query and changes nothing else |
| BrowseProductsPage.OpenDialog | examples/supply-chain/web-frontend/src/pages/BrowseProducts.js:300-334 | opening a dialog from a row shows it and remembers the row's token id text, and nothing else |
| BrowseProductsPage.ResetTransfer | examples/supply-chain/web-frontend/src/pages/BrowseProducts.js:353-359 | clears the token id, target chain, target owner and transfer error, and nothing else |
| BrowseProductsPage.ResetCheckpoint | examples/supply-chain/web-frontend/src/pages/BrowseProducts.js:361-367 | clears location, notes and the checkpoint error and sets the status back to `IN_TRANSIT`, and nothing else |
| BrowseProductsPage.ResetStatus | examples/supply-chain/web-frontend/src/pages/BrowseProducts.js:369-375 | clears the shared location, notes and status fields and only the status error |
| BrowseProductsPage.ResetVerify | examples/supply-chain/web-frontend/src/pages/BrowseProducts.js:377-382 | sets the result back to pass, clears the details and the verification error, and nothing else |
| BrowseProductsPage.CloseDialog | examples/supply-chain/web-frontend/src/pages/BrowseProducts.js:305-338 | closing hides exactly that dialog and does not refresh |
| BrowseProductsPage.CloseClearsOwnError | examples/supply-chain/web-frontend/src/pages/BrowseProducts.js:305-382 | closing a dialog clears its own error banner and no other |
| BrowseProductsPage.NotesOrNull | examples/supply-chain/web-frontend/src/pages/BrowseProducts.js:416 | empty notes are sent as null, other notes as typed |
| BrowseProductsPage.TransferSubmit | examples/supply-chain/web-frontend/src/pages/BrowseProducts.js:385-408 | the transfer carries the dialog's token id text, the prefixed source owner and the target chain with the prefixed target owner |
| BrowseProductsPage.CheckpointSubmit | examples/supply-chain/web-frontend/src/pages/BrowseProducts.js:410-427 | the checkpoint request carries the dialog's token id text, location, status token and notes (null when empty), and reports to the checkpoint dialog with prefix "Checkpoint Error: " |
| BrowseProductsPage.StatusSubmit | examples/supply-chain/web-frontend/src/pages/BrowseProducts.js:429-446 | the status request carries exactly the data the checkpoint dialog would send, and reports to the status dialog with prefix "Status Update Error: " |
| BrowseProductsPage.VerifySubmit | examples/supply-chain/web-frontend/src/pages/BrowseProducts.js:448-481 | a pass sends a verification with `passed: true`; a failure sends a rejection with the details as reason, never a failed verification |
| BrowseProductsPage.OnReply | examples/supply-chain/web-frontend/src/pages/BrowseProducts.js:236-287 | a completed mutation closes its dialog with the error cleared and re-runs the owned-products query. A failure sets that dialog's error to its prefix and the message, leaving dialogs and queries alone. Other dialogs' errors never change |
| BrowseProductsPage.RefreshesAppend | examples/supply-chain/web-frontend/src/pages/BrowseProducts.js:236-297 | the number of refreshing events in two event sequences run one after the other is the sum of their counts |
| BrowseProductsPage.Apply | examples/supply-chain/web-frontend/src/pages/BrowseProducts.js:236-338 | one event: opening shows the dialog, closing or a completed mutation hides it, only a notification or a completed mutation runs the query, and nothing but opening shows a dialog |
| BrowseProductsPage.Run | examples/supply-chain/web-frontend/src/pages/BrowseProducts.js:236-338 | over any sequence of events the query count never falls, and without an opening event no dialog becomes visible |
| BrowseProductsPage.QueryRunsOncePerRefresh | examples/supply-chain/web-frontend/src/pages/BrowseProducts.js:236-297 | over any sequence of events the owned-products query runs exactly once per notification and per completed mutation |
| SupplyChainService.ParseAccount | examples/supply-chain/src/service.rs:181-186 | a typed target account is accepted exactly when its chain id and owner text both parse, and it then names the parsed chain and owner |
| BrowseProductsPage.ServiceAsWritten | examples/supply-chain/src/service.rs:165-214 | of the page's requests only a transfer reaches the service's schema; the others are unknown fields. A transfer is accepted exactly when the source owner, target chain and target owner text parse and the token id decodes; it then schedules `TransferCustody` with the parsed values and the decoded id |
| BrowseProductsPage.DialogsOtherThanTransferAlwaysFail | examples/supply-chain/web-frontend/src/pages/BrowseProducts.js:249-287 | with the service as written, the checkpoint, status and verification dialogs are always refused. The page then shows "Checkpoint Error: ", "Status Update Error: " or, for the verification dialog, "Verify Error: " after a pass and "Reject Error: " after a failure, followed by the message, and leaves every dialog as it was |
| BrowseProductsPage.IntendedService | examples/supply-chain/web-frontend/src/pages/BrowseProducts.js:80-136 | the intended service agrees with the actual one on transfers, including their scalar parsing, and a request it accepts names the decoded token id |
| BrowseProductsPage.CheckpointFromRowReachesProduct | examples/supply-chain/web-frontend/src/pages/BrowseProducts.js:410-427 | with the intended service, a checkpoint submitted from a stored product's row appends exactly the dialog's checkpoint (location, chosen status, notes or null) and sets that status |
| BrowseProductsPage.CheckpointAndStatusDialogsAgree | examples/supply-chain/web-frontend/src/pages/BrowseProducts.js:410-446 | with the intended service, the checkpoint and status dialogs are refused together or leave the same chain state |
| BrowseProductsPage.TransferFromRowReachesProduct | examples/supply-chain/web-frontend/src/pages/BrowseProducts.js:385-408 | take a transfer submitted from the row of a product the page's owner holds, whose owner text parses to itself. If the chain id text parses to this chain and the prefixed target owner text parses, the product passes to the owner that text names and becomes `Delivered` |
| BrowseProductsPage.MalformedTargetIsRefused | examples/supply-chain/web-frontend/src/pages/BrowseProducts.js:236-241 | a transfer whose typed target chain id or prefixed target owner the scalars refuse is refused; the page shows "Transfer Error: " and the message, and the dialog stays open |

## Findings

| source | as written | input that shows it | evidently intended | confidence | as-written member | corrected member |
|---|---|---|---|---|---|---|
| examples/supply-chain/web-frontend/src/pages/BrowseProducts.js:249-287 | the browse page sends `addCheckpoint`, `updateStatus`, `verifyProduct` and `rejectProduct` mutations, but the service's mutation root (service.rs:165-214) defines only `registerProduct`, `transferCustody` and `claimProduct` | submitting the Add Checkpoint dialog for any product: the request is refused and the page shows "Checkpoint Error: …" | each request schedules the contract operation of the same name, with the id text decoded and the status token read as a `ProductStatus` | not executed | BrowseProductsPage.DialogsOtherThanTransferAlwaysFail | BrowseProductsPage.CheckpointFromRowReachesProduct |

## Left out

- I/O and frameworks are not modelled: storage views, GraphQL transport, Apollo caching, React rendering, `localStorage` persistence and JSON parsing of the manufacturer table, `FileReader` previews, console logging and toast messages.
- SHA3-256 over the BCS bytes is a `digest` parameter. Its collision freedom is a hypothesis (`CollisionFree`) over the tuple of inputs, not over the concatenated byte stream.
- Base64 is a `Codec` parameter, described only by `ValidCodec`.
- The `AccountOwner` and `ChainId` scalar parsers are the `Scalars` parameter. Their grammar (hex digits, length, case folding) is not modelled; the model only knows whether text parses and to what.
- The permission check, blob existence and the blob reader are runtime parameters.
- Account profiles (`account_profiles`, `RegisterAccountProfile`, `UpdateAccountLocation`) are not modelled: the dispatch has no arm for them.
- `GeoLocation` is not modelled: no code path sets a checkpoint's geographic location.
- SupplyChainContract.RegisterProduct: the registration counter is an unbounded `nat`, not a `u64`; the model does not overflow at 2^64 registrations.
- Failures of storage reads and writes (the `expect`s on view access) are not modelled; a missing product or owner set is.
- Message delivery status other than "bouncing or not" is not modelled.
- The browse page's details dialog (`productHistory`, `verificationRecords`) and the status icons are not modelled. The queries do not exist in the service; the icons are presentation only.
- BrowseProductsPage.GetStatusColor: `colors[status]` also finds keys JavaScript objects inherit (such as `constructor`); the model treats those as unknown and gives `default`.
- ManufacturerContext.GetManufacturerName: JavaScript falsiness is reduced to the inputs the page produces, a string or a missing value.
- ManufacturerRegistry.Submit: the form's asynchronous validation is a predicate on the current field values; antd's other rules (whitespace, types) do not apply to these fields.
- The browse page's dialogs submit by button click without running the form's `required` rules, so the model applies none.
- Utf8.Encode: Dafny characters are Unicode scalar values, so lone surrogates, which `TextEncoder` replaces with U+FFFD, cannot occur in the model.
- The form validator library is not part of this model. `ManufacturerRegistry.ValidatorLength` restates its length rule, which counts a surrogate pair as one unit.
- ManufacturerRegistry.ValidName: a name holding a lone surrogate, which the validator counts as one character, cannot occur in the model, since Dafny characters are scalar values.
