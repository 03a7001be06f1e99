/**
 * The collection factory: it deploys clones of the current NFTCollection
 * and NFTDropCollection implementations at addresses fixed by the
 * creator and a nonce, initializes them in the same transaction, keeps
 * a versioned implementation for each kind, and, for a drop paid through
 * a split, deploys the split first unless it already exists.
 */
module CollectionFactory {
  import opened Types
  import opened Decimal
  import Splits
  import DropCollections
  import NFTCollections
  import Royalties

  /**
   * What an address passed as a new implementation holds: an instance of
   * the expected contract, some other contract, or no code at all.
   */
  datatype Candidate<T> = Instance(obj: T) | OtherContract(addr: Address) | NoCode(addr: Address)

  /** How a drop's creator revenue is to be paid. */
  datatype Payment =
    | NoPayment                          // `createNFTDropCollection`: to the creator
    | PaymentAddress(addr: Address)      // `createNFTDropCollectionWithPaymentAddress`
    | PaymentFactory(shares: seq<Share>) // `createNFTDropCollectionWithPaymentFactory` calling `createSplit`

  /**
   * Where a clone of `template` deployed by `factory` for `(creator, nonce)`
   * lives (`predictNFTCollectionAddress`, `predictNFTDropCollectionAddress`).
   */
  function PredictedAddress(factory: Address, template: Address, creator: Address, nonce: Uint256): (a: Address)
  {
    Clone(factory, template, CreatorNonce(creator, nonce))
  }

  /**
   * Two creations get the same address only for the same creator and nonce
   * under the same factory and template: a creator's nonces never collide,
   * nor do two creators with the same nonce, nor a collection and a split.
   * This holds because `Clone` is a datatype constructor, which is how the
   * model abstracts keccak-256; it states that abstraction rather than
   * anything the factory's code does.
   */
  lemma PredictedAddressInjective(factory: Address, template: Address, creator: Address, nonce: Uint256,
                                  creator': Address, nonce': Uint256)
    ensures PredictedAddress(factory, template, creator, nonce) == PredictedAddress(factory, template, creator', nonce')
            <==> creator == creator' && nonce == nonce'
    ensures forall shares :: PredictedAddress(factory, template, creator, nonce) != Clone(factory, template, SplitShares(shares))
  {
  }

  /** The name and symbol an implementation receives when installed as version `version`. */
  function DropTemplateName(version: nat): (s: string)
  {
    "NFT Drop Collection Implementation v" + ToDecimal(version)
  }

  function DropTemplateSymbol(version: nat): (s: string)
  {
    "NFTDropV" + ToDecimal(version)
  }

  function CollectionTemplateName(version: nat): (s: string)
  {
    "NFT Collection Implementation v" + ToDecimal(version)
  }

  function CollectionTemplateSymbol(version: nat): (s: string)
  {
    "NFTv" + ToDecimal(version)
  }

  /** Each installed version gets its own template symbol, so the symbol tells the version. */
  lemma TemplateSymbolsDistinct(v: nat, w: nat)
    ensures DropTemplateSymbol(v) == DropTemplateSymbol(w) <==> v == w
    ensures CollectionTemplateSymbol(v) == CollectionTemplateSymbol(w) <==> v == w
  {
    ToDecimalInjective(v, w);
    if DropTemplateSymbol(v) == DropTemplateSymbol(w) {
      assert ToDecimal(v) == DropTemplateSymbol(v)[|"NFTDropV"|..];
      assert ToDecimal(w) == DropTemplateSymbol(w)[|"NFTDropV"|..];
    }
    if CollectionTemplateSymbol(v) == CollectionTemplateSymbol(w) {
      assert ToDecimal(v) == CollectionTemplateSymbol(v)[|"NFTv"|..];
      assert ToDecimal(w) == CollectionTemplateSymbol(w)[|"NFTv"|..];
    }
  }

  /** The placeholder pre-reveal URI and ceiling a drop implementation is initialized with. */
  const TEMPLATE_BASE_URI: string := "ipfs://"
  const TEMPLATE_MAX_TOKEN_ID: nat := 1

  /** The payment address handed to a new drop's `initialize`. */
  function PaymentAddressOf(payment: Payment, split: Address): Address
  {
    match payment
    case NoPayment => Zero
    case PaymentAddress(a) => a
    case PaymentFactory(_) => split
  }

  /**
   * The royalty getters of a new drop: every one of them names the recipient
   * its creation chose (the creator without a payment address, the given
   * address, or the split), at 10%, while `tokenCreator` stays the creator.
   * `stored` is what `initialize` keeps: none when the address is the creator.
   */
  lemma CreatedDropRoyalties(caller: Address, payment: Payment, split: Address, salePrice: nat)
    ensures var p := PaymentAddressOf(payment, split);
            var cfg := Royalties.RoyaltyConfig(caller, if p == caller then Zero else p);
            var expected := if p == Zero then caller else p;
            && Royalties.GetFeeRecipients(cfg) == [expected]
            && Royalties.GetFeeBps(cfg) == [Royalties.ROYALTY_BASIS_POINTS]
            && Royalties.GetRoyalties(cfg) == ([expected], [Royalties.ROYALTY_BASIS_POINTS])
            && Royalties.RoyaltyInfo(cfg, salePrice) == (expected, salePrice / 10)
            && Royalties.TokenCreator(cfg) == caller
            && (payment.NoPayment? ==> expected == caller)
            && (payment.PaymentAddress? && payment.addr != Zero ==> expected == payment.addr)
            && (payment.PaymentFactory? && split != Zero ==> expected == split)
  {
  }

  /**
   * The checks of a drop creation, in the order the transaction meets
   * them: the split's shares, an implementation to clone, a free address,
   * then the new instance's `initialize` (called by the factory itself).
   */
  function CreateDropCheck(payment: Payment, hasImplementation: bool, live: bool, factory: Address,
                           creator: Address, symbol: string, baseURI: string, maxTokenId: nat,
                           approvedMinter: Address): (r: Result<seq<Event>>)
    ensures r.Ok? <==> (payment.PaymentFactory? ==> Splits.ValidShares(payment.shares)) && hasImplementation && !live
                       && creator != Zero && symbol != "" && maxTokenId != 0 && baseURI != ""
    ensures payment.PaymentFactory? && !Splits.ValidShares(payment.shares) ==> r == Err(InvalidSplitShares)
    ensures (payment.PaymentFactory? ==> Splits.ValidShares(payment.shares)) && hasImplementation && live ==>
              r == Err(Create2Failed)
    ensures ((payment.PaymentFactory? ==> Splits.ValidShares(payment.shares)) && hasImplementation && !live
             && creator != Zero && symbol == "") ==> r == Err(SymbolMustBeSet)
    ensures r.Ok? ==> |r.value| >= 2 && r.value[0] == RoleGranted(AdminRole, creator, factory)
    ensures r.Ok? ==> (|r.value| == 3 <==> approvedMinter != Zero)
  {
    if payment.PaymentFactory? && !Splits.ValidShares(payment.shares) then Err(InvalidSplitShares)
    else if !hasImplementation then Err(RevertedWithoutReason)
    else if live then Err(Create2Failed)
    else DropCollections.InitializeOutcome(false, factory, factory, creator, symbol, baseURI, maxTokenId, approvedMinter)
  }

  /**
   * `NFTCollectionFactory`: the registry of deployed clones by address,
   * and for each kind of collection its current implementation and
   * version.
   */
  class NFTCollectionFactory {
    const address: Address
    /** The treasury, whose admins administer the factory; implementations are initialized with it as creator. */
    const rolesContract: Address
    const admins: set<Address>
    const splitFactory: Splits.PercentSplitFactory
    var initialized: bool
    var implementationNFTCollection: NFTCollections.NFTCollection?
    var versionNFTCollection: nat
    var implementationNFTDropCollection: DropCollections.NFTDropCollection?
    var versionNFTDropCollection: nat
    /** Every clone deployed, by address; a self-destructed one stays until its address is reused. */
    var collections: map<Address, NFTCollections.NFTCollection>
    var dropCollections: map<Address, DropCollections.NFTDropCollection>

    ghost predicate Valid()
      reads this, splitFactory
    {
      && splitFactory.Valid()
      && (forall a :: a in collections ==> collections[a].address == a && collections[a].contractFactory == address)
      && (forall a :: a in dropCollections ==>
            dropCollections[a].address == a && dropCollections[a].contractFactory == address)
    }

    /** `predictNFTCollectionAddress`. */
    function PredictNFTCollectionAddress(creator: Address, nonce: Uint256): (a: Address)
      reads this
      ensures a == PredictedAddress(address, if implementationNFTCollection == null then Zero
                                             else implementationNFTCollection.address, creator, nonce)
    {
      Clone(address, if implementationNFTCollection == null then Zero else implementationNFTCollection.address,
            CreatorNonce(creator, nonce))
    }

    /** `predictNFTDropCollectionAddress`. */
    function PredictNFTDropCollectionAddress(creator: Address, nonce: Uint256): (a: Address)
      reads this
      ensures a == PredictedAddress(address, if implementationNFTDropCollection == null then Zero
                                             else implementationNFTDropCollection.address, creator, nonce)
    {
      Clone(address, if implementationNFTDropCollection == null then Zero
                     else implementationNFTDropCollection.address, CreatorNonce(creator, nonce))
    }

    /** Whether code is deployed at `a`: a clone that has not self-destructed. */
    predicate IsLive(a: Address)
      reads this, collections.Values, dropCollections.Values
    {
      || (a in collections && !collections[a].destroyed)
      || (a in dropCollections && !dropCollections[a].destroyed)
    }

    constructor (address: Address, rolesContract: Address, admins: set<Address>,
                 splitFactory: Splits.PercentSplitFactory)
      requires splitFactory.Valid()
      ensures Valid()
      ensures this.address == address && this.rolesContract == rolesContract && this.admins == admins
      ensures this.splitFactory == splitFactory
      ensures !initialized && versionNFTCollection == 0 && versionNFTDropCollection == 0
      ensures implementationNFTCollection == null && implementationNFTDropCollection == null
      ensures collections == map[] && dropCollections == map[]
    {
      this.address := address;
      this.rolesContract := rolesContract;
      this.admins := admins;
      this.splitFactory := splitFactory;
      initialized := false;
      implementationNFTCollection := null;
      versionNFTCollection := 0;
      implementationNFTDropCollection := null;
      versionNFTDropCollection := 0;
      collections := map[];
      dropCollections := map[];
    }

    /** `initialize(versionNFTCollection)`: once only. */
    method Initialize(versionNFTCollection: nat) returns (r: Result<seq<Event>>)
      requires Valid()
      modifies this`initialized, this`versionNFTCollection
      ensures Valid()
      ensures r == if old(initialized) then Err(AlreadyInitialized) else Ok([Initialized(1)])
      ensures initialized
      ensures this.versionNFTCollection == if r.Ok? then versionNFTCollection else old(this.versionNFTCollection)
    {
      if initialized {
        return Err(AlreadyInitialized);
      }
      initialized := true;
      this.versionNFTCollection := versionNFTCollection;
      r := Ok([Initialized(1)]);
    }

    /**
     * `adminUpdateNFTDropCollectionImplementation`: an admin installs a new
     * drop implementation as the next version; the implementation is
     * initialized on the spot (with the treasury as creator and a
     * versioned name) so nobody else can claim it, which fails for one
     * already initialized or deployed for another factory.
     */
    method AdminUpdateNFTDropCollectionImplementation(caller: Address,
                                                      impl: Candidate<DropCollections.NFTDropCollection>)
      returns (r: Result<seq<Event>>)
      requires Valid()
      requires impl.Instance? ==> impl.obj.Valid() && !impl.obj.destroyed
      modifies this`implementationNFTDropCollection, this`versionNFTDropCollection
      modifies if impl.Instance? then {impl.obj} else {}
      ensures Valid()
      ensures caller !in admins ==> r == Err(CallerNotAdmin)
      ensures caller in admins && impl.NoCode? ==> r == Err(ImplementationNotContract)
      ensures caller in admins && impl.OtherContract? ==> r == Err(RevertedWithoutReason)
      ensures caller in admins && impl.Instance? && impl.obj.contractFactory != address ==> r == Err(CallerNotFactory)
      ensures caller in admins && impl.Instance? && impl.obj.contractFactory == address && old(impl.obj.initialized) ==>
                r == Err(AlreadyInitialized)
      ensures r.Ok? <==> caller in admins && impl.Instance? && impl.obj.contractFactory == address
                         && !old(impl.obj.initialized) && rolesContract != Zero
      ensures r.Err? ==> unchanged(this) && (impl.Instance? ==> unchanged(impl.obj))
      ensures r.Ok? ==>
                && implementationNFTDropCollection == impl.obj
                && versionNFTDropCollection == old(versionNFTDropCollection) + 1
                && impl.obj.initialized && impl.obj.creator == rolesContract
                && impl.obj.name == DropTemplateName(versionNFTDropCollection)
                && impl.obj.symbol == DropTemplateSymbol(versionNFTDropCollection)
                && r.value == [ImplementationNFTDropCollectionUpdated(impl.obj.address, versionNFTDropCollection),
                               RoleGranted(AdminRole, rolesContract, address), Initialized(1)]
    {
      if caller !in admins {
        return Err(CallerNotAdmin);
      }
      match impl
      case NoCode(_) =>
        return Err(ImplementationNotContract);
      case OtherContract(_) =>
        return Err(RevertedWithoutReason);
      case Instance(c) =>
        var version := versionNFTDropCollection + 1;
        var init := c.Initialize(address, rolesContract, DropTemplateName(version), DropTemplateSymbol(version),
                                 TEMPLATE_BASE_URI, 0, TEMPLATE_MAX_TOKEN_ID, Zero, Zero);
        if init.Err? {
          return Err(init.error);
        }
        implementationNFTDropCollection := c;
        versionNFTDropCollection := version;
        r := Ok([ImplementationNFTDropCollectionUpdated(c.address, version)] + init.value);
    }

    /**
     * `adminUpdateNFTCollectionImplementation`: the same for the
     * NFTCollection implementation.
     */
    method AdminUpdateNFTCollectionImplementation(caller: Address, impl: Candidate<NFTCollections.NFTCollection>)
      returns (r: Result<seq<Event>>)
      requires Valid()
      requires impl.Instance? ==> impl.obj.Valid() && !impl.obj.destroyed
      modifies this`implementationNFTCollection, this`versionNFTCollection
      modifies if impl.Instance? then {impl.obj} else {}
      ensures Valid()
      ensures caller !in admins ==> r == Err(CallerNotAdmin)
      ensures caller in admins && impl.NoCode? ==> r == Err(ImplementationNotContract)
      ensures caller in admins && impl.OtherContract? ==> r == Err(RevertedWithoutReason)
      ensures caller in admins && impl.Instance? && impl.obj.contractFactory != address ==> r == Err(CallerNotFactory)
      ensures caller in admins && impl.Instance? && impl.obj.contractFactory == address && old(impl.obj.initialized) ==>
                r == Err(AlreadyInitialized)
      ensures r.Ok? <==> caller in admins && impl.Instance? && impl.obj.contractFactory == address
                         && !old(impl.obj.initialized) && rolesContract != Zero
      ensures r.Err? ==> unchanged(this) && (impl.Instance? ==> unchanged(impl.obj))
      ensures r.Ok? ==>
                && implementationNFTCollection == impl.obj
                && versionNFTCollection == old(versionNFTCollection) + 1
                && impl.obj.initialized && impl.obj.creator == rolesContract
                && impl.obj.name == CollectionTemplateName(versionNFTCollection)
                && impl.obj.symbol == CollectionTemplateSymbol(versionNFTCollection)
                && r.value == [ImplementationNFTCollectionUpdated(impl.obj.address, versionNFTCollection), Initialized(1)]
    {
      if caller !in admins {
        return Err(CallerNotAdmin);
      }
      match impl
      case NoCode(_) =>
        return Err(ImplementationNotContract);
      case OtherContract(_) =>
        return Err(RevertedWithoutReason);
      case Instance(c) =>
        var version := versionNFTCollection + 1;
        var init := c.Initialize(address, rolesContract, CollectionTemplateName(version),
                                 CollectionTemplateSymbol(version));
        if init.Err? {
          return Err(init.error);
        }
        implementationNFTCollection := c;
        versionNFTCollection := version;
        r := Ok([ImplementationNFTCollectionUpdated(c.address, version)] + init.value);
    }

    /**
     * `createNFTCollection`: the caller's collection for `nonce`, cloned
     * from the current implementation at the predicted address and
     * initialized with the caller as creator. The address must not hold
     * live code; a self-destructed collection's address can be reused and
     * the new instance starts from token id 1 again.
     */
    method CreateNFTCollection(caller: Address, name: string, symbol: string, nonce: Uint256)
      returns (r: Result<(Address, seq<Event>)>)
      requires Valid()
      modifies this`collections
      ensures Valid()
      ensures symbol == "" ==> r == Err(SymbolRequired)
      ensures symbol != "" && implementationNFTCollection == null ==> r == Err(RevertedWithoutReason)
      ensures (symbol != "" && implementationNFTCollection != null
               && old(IsLive(PredictNFTCollectionAddress(caller, nonce)))) ==> r == Err(Create2Failed)
      ensures r.Ok? <==> symbol != "" && implementationNFTCollection != null
                         && !old(IsLive(PredictNFTCollectionAddress(caller, nonce))) && caller != Zero
      ensures r.Err? ==> unchanged(this)
      ensures r.Ok? ==>
                var a := r.value.0;
                && a == PredictNFTCollectionAddress(caller, nonce)
                && a in collections && fresh(collections[a])
                && collections == old(collections)[a := collections[a]]
                && IsLive(a)
                && collections[a].initialized && collections[a].creator == caller
                && collections[a].name == name && collections[a].symbol == symbol
                && collections[a].latestTokenId == 0 && collections[a].maxTokenId == 0
                && collections[a].owners == map[] && collections[a].Valid()
                && collections[a].BaseURI() == NFTCollections.DEFAULT_BASE_URI
                && r.value.1 == [Initialized(1),
                                 NFTCollectionCreated(a, caller, versionNFTCollection, name, symbol, nonce)]
    {
      if symbol == "" {
        return Err(SymbolRequired);
      }
      if implementationNFTCollection == null {
        return Err(RevertedWithoutReason);
      }
      var a := PredictNFTCollectionAddress(caller, nonce);
      if IsLive(a) {
        return Err(Create2Failed);
      }
      var c := new NFTCollections.NFTCollection(a, address);
      var init := c.Initialize(address, caller, name, symbol);
      if init.Err? {
        return Err(init.error);
      }
      collections := collections[a := c];
      r := Ok((a, init.value + [NFTCollectionCreated(a, caller, versionNFTCollection, name, symbol, nonce)]));
    }

    /**
     * `createNFTDropCollection` and its `WithPaymentAddress` and
     * `WithPaymentFactory` variants: a drop for `(caller, nonce)` cloned
     * from the current drop implementation, with the caller as admin and
     * `approvedMinter` (when non-zero) as minter. With a payment factory
     * the split is created first, or reused when it exists. The events
     * are the split's, then the drop's initialization, then the
     * factory's creation event, which carries the current version.
     */
    method CreateNFTDropCollection(caller: Address, name: string, symbol: string, baseURI: string,
                                   postRevealBaseURIHash: Bytes32, maxTokenId: nat, approvedMinter: Address,
                                   nonce: Uint256, payment: Payment)
      returns (r: Result<(Address, seq<Event>)>)
      requires Valid()
      modifies this`dropCollections, splitFactory
      ensures Valid()
      ensures r.Err? <==> old(CreateDropCheck(payment, implementationNFTDropCollection != null,
                                              IsLive(PredictNFTDropCollectionAddress(caller, nonce)), address,
                                              caller, symbol, baseURI, maxTokenId, approvedMinter)).Err?
      ensures r.Err? ==> r.error == old(CreateDropCheck(payment, implementationNFTDropCollection != null,
                                                        IsLive(PredictNFTDropCollectionAddress(caller, nonce)), address,
                                                        caller, symbol, baseURI, maxTokenId, approvedMinter)).error
      ensures r.Err? ==> unchanged(this) && unchanged(splitFactory)
      ensures r.Ok? ==>
                var a := r.value.0;
                var split := splitFactory.SplitAddress(if payment.PaymentFactory? then payment.shares else []);
                var paymentAddress := PaymentAddressOf(payment, split);
                var stored := if paymentAddress == caller then Zero else paymentAddress;
                var splitEvents := if payment.PaymentFactory? && split !in old(splitFactory.splits)
                                   then [PercentSplitCreated(split)] + Splits.ShareEvents(payment.shares)
                                        + [Initialized(1)]
                                   else [];
                && a == PredictNFTDropCollectionAddress(caller, nonce)
                && a in dropCollections && fresh(dropCollections[a])
                && dropCollections == old(dropCollections)[a := dropCollections[a]]
                && IsLive(a)
                && splitFactory.splits == (if payment.PaymentFactory? then old(splitFactory.splits)[split := payment.shares]
                                           else old(splitFactory.splits))
                && dropCollections[a].Valid() && dropCollections[a].initialized
                && dropCollections[a].creator == caller && dropCollections[a].admins == {caller}
                && dropCollections[a].minters == (if approvedMinter == Zero then {} else {approvedMinter})
                && dropCollections[a].name == name && dropCollections[a].symbol == symbol
                && dropCollections[a].baseURI == baseURI
                && dropCollections[a].postRevealBaseURIHash == postRevealBaseURIHash
                && dropCollections[a].maxTokenId == maxTokenId && dropCollections[a].latestTokenId == 0
                && dropCollections[a].owners == map[]
                && dropCollections[a].paymentAddress == stored
                && Royalties.PaymentRecipient(dropCollections[a].RoyaltyConfig())
                   == (if paymentAddress == Zero then caller else paymentAddress)
                && r.value.1 == splitEvents
                                + DropCollections.InitializeOutcome(false, address, address, caller, symbol, baseURI,
                                                                    maxTokenId, approvedMinter).value
                                + [NFTDropCollectionCreated(a, caller, approvedMinter, name, symbol, baseURI,
                                                            postRevealBaseURIHash, maxTokenId, stored,
                                                            versionNFTDropCollection, nonce)]
    {
      var a := PredictNFTDropCollectionAddress(caller, nonce);
      var check := CreateDropCheck(payment, implementationNFTDropCollection != null, IsLive(a), address,
                                   caller, symbol, baseURI, maxTokenId, approvedMinter);
      if check.Err? {
        return Err(check.error);
      }
      var splitEvents: seq<Event> := [];
      var split := splitFactory.SplitAddress(if payment.PaymentFactory? then payment.shares else []);
      if payment.PaymentFactory? {
        var created := splitFactory.CreateSplit(payment.shares);
        splitEvents := created.value.1;
      }
      var paymentAddress := PaymentAddressOf(payment, split);
      var initEvents := DeployDrop(a, caller, name, symbol, baseURI, postRevealBaseURIHash, maxTokenId,
                                   approvedMinter, paymentAddress);
      r := Ok((a, splitEvents + initEvents
                  + [NFTDropCollectionCreated(a, caller, approvedMinter, name, symbol, baseURI, postRevealBaseURIHash,
                                              maxTokenId, dropCollections[a].paymentAddress,
                                              versionNFTDropCollection, nonce)]));
    }

    /** The clone of a drop creation that passed its checks: a new drop at `a`, initialized and registered. */
    method DeployDrop(a: Address, caller: Address, name: string, symbol: string, baseURI: string,
                      postRevealBaseURIHash: Bytes32, maxTokenId: nat, approvedMinter: Address,
                      paymentAddress: Address)
      returns (events: seq<Event>)
      requires Valid()
      requires DropCollections.InitializeOutcome(false, address, address, caller, symbol, baseURI, maxTokenId,
                                                 approvedMinter).Ok?
      modifies this`dropCollections
      ensures Valid()
      ensures a in dropCollections && fresh(dropCollections[a])
      ensures dropCollections == old(dropCollections)[a := dropCollections[a]]
      ensures IsLive(a)
      ensures dropCollections[a].Valid() && dropCollections[a].initialized
      ensures dropCollections[a].creator == caller && dropCollections[a].admins == {caller}
      ensures dropCollections[a].minters == (if approvedMinter == Zero then {} else {approvedMinter})
      ensures dropCollections[a].name == name && dropCollections[a].symbol == symbol
      ensures dropCollections[a].baseURI == baseURI
      ensures dropCollections[a].postRevealBaseURIHash == postRevealBaseURIHash
      ensures dropCollections[a].maxTokenId == maxTokenId && dropCollections[a].latestTokenId == 0
      ensures dropCollections[a].owners == map[]
      ensures dropCollections[a].paymentAddress == if paymentAddress == caller then Zero else paymentAddress
      ensures events == DropCollections.InitializeOutcome(false, address, address, caller, symbol, baseURI,
                                                          maxTokenId, approvedMinter).value
    {
      var c := new DropCollections.NFTDropCollection(a, address);
      var init := c.Initialize(address, caller, name, symbol, baseURI, postRevealBaseURIHash, maxTokenId,
                               approvedMinter, paymentAddress);
      dropCollections := dropCollections[a := c];
      events := init.value;
    }
  }
}
