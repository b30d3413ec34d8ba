/**
 * The Spoolman cache client of `src/slic3r/Utils/Spoolman.hpp` (namespace Slic3r).
 *
 * `Spoolman` owns three id-keyed caches of vendors, filaments and spools, a flag that
 * records whether the last pull from the server succeeded, and is reached through the
 * single instance that `get_instance` creates. Every lookup goes through
 * `std::map::operator[]`, so looking up an id that is not cached inserts a null entry.
 *
 * The pull itself (an HTTP request plus parsing) is not visible; a pull is modelled as a
 * step whose outcome, a success flag and the three caches it leaves, is a parameter.
 */
module Slic3r {
  import opened Wrappers
  import opened StdMap

  // ---------------------------------------------------------------------------------
  // Records handed to the entity constructors: the fields of one JSON object of the
  // server's response (floating-point fields are not modelled).
  // ---------------------------------------------------------------------------------

  datatype VendorJson = VendorJson(id: int, name: string)

  datatype FilamentJson = FilamentJson(
    id: int, name: string, material: string, articleNumber: string,
    extruderTemp: int, bedTemp: int, color: string,
    vendorId: int)   // the nested `vendor.id`

  datatype SpoolJson = SpoolJson(
    id: int, archived: bool,
    filamentId: int)   // the nested `filament.id`

  // ---------------------------------------------------------------------------------
  // Entities. Their fields are set once, by the constructor.
  // ---------------------------------------------------------------------------------

  /** SpoolmanVendor: a manufacturer. */
  class Vendor {
    const id: int
    const name: string

    constructor (json: VendorJson)
      ensures id == json.id && name == json.name
    {
      id := json.id;
      name := json.name;
    }
  }

  /** SpoolmanFilament: a kind of filament, shared by any number of spools. */
  class Filament {
    const id: int
    const name: string
    const material: string
    const articleNumber: string
    const extruderTemp: int
    const bedTemp: int
    const color: string
    /** m_vendor_ptr */
    const vendor: Option<Vendor>

    /**
     * The vendor is looked up, with `operator[]`, in the vendor cache of the current
     * Spoolman instance before the remaining fields are filled in.
     */
    constructor (process: Process, json: FilamentJson)
      requires process.instance != null
      modifies process.instance
      ensures vendor == Subscript(old(process.instance.vendors), json.vendorId).value
      ensures process.instance.State() ==
              old(process.instance.State()).(vendors := Subscript(old(process.instance.vendors), json.vendorId).after)
      ensures id == json.id && name == json.name && material == json.material
      ensures articleNumber == json.articleNumber && color == json.color
      ensures extruderTemp == json.extruderTemp && bedTemp == json.bedTemp
    {
      var spoolman := process.instance;
      var access := Subscript(spoolman.vendors, json.vendorId);
      spoolman.vendors := access.after;
      vendor := access.value;
      id, name, material := json.id, json.name, json.material;
      articleNumber, color := json.articleNumber, json.color;
      extruderTemp, bedTemp := json.extruderTemp, json.bedTemp;
    }
  }

  /** SpoolmanSpool: one physical spool of a filament. */
  class Spool {
    const id: int
    const archived: bool
    /** m_filament_ptr */
    const filament: Option<Filament>

    /**
     * The filament is looked up, with `operator[]`, in the filament cache of the current
     * Spoolman instance before the remaining fields are filled in.
     */
    constructor (process: Process, json: SpoolJson)
      requires process.instance != null
      modifies process.instance
      ensures filament == Subscript(old(process.instance.filaments), json.filamentId).value
      ensures process.instance.State() ==
              old(process.instance.State()).(filaments := Subscript(old(process.instance.filaments), json.filamentId).after)
      ensures id == json.id && archived == json.archived
    {
      var spoolman := process.instance;
      var access := Subscript(spoolman.filaments, json.filamentId);
      spoolman.filaments := access.after;
      filament := access.value;
      id, archived := json.id, json.archived;
    }

    /** getVendor: the vendor is reached through the filament; a null filament may not be dereferenced. */
    function GetVendor(): Option<Vendor>
      requires filament.Some?
    {
      filament.value.vendor
    }
  }

  // ---------------------------------------------------------------------------------
  // The client's state as a value, and what each getter does to it.
  // ---------------------------------------------------------------------------------

  /** The fields of a Spoolman object, plus the number of pulls it has run so far. */
  datatype ClientState = ClientState(
    vendors: Cache<Vendor>, filaments: Cache<Filament>, spools: Cache<Spool>,
    initialized: bool, pulls: nat)

  /** What one run of `pull_spoolman_spools` returns and leaves in the three caches. */
  datatype PullOutcome = PullOutcome(
    ok: bool, vendors: Cache<Vendor>, filaments: Cache<Filament>, spools: Cache<Spool>)

  /** A freshly allocated client, before the constructor pulls. */
  const Blank := ClientState(map[], map[], map[], false, 0)

  /** The state after `m_initialized = pull_spoolman_spools()`. */
  function Pulled(s: ClientState, o: PullOutcome): ClientState
  {
    ClientState(o.vendors, o.filaments, o.spools, o.ok, s.pulls + 1)
  }

  /** Both getters pull when asked to update or when the client is not initialised. */
  predicate MustPull(s: ClientState, update: bool)
  {
    update || !s.initialized
  }

  /**
   * The refresh-or-not prelude shared by `get_spoolman_spools` and
   * `get_spoolman_spool_by_id`; the former then returns the spool cache of this state.
   */
  function Refresh(s: ClientState, update: bool, o: PullOutcome): (r: ClientState)
    // at most one pull, and exactly one when one is called for
    ensures r.pulls == if MustPull(s, update) then s.pulls + 1 else s.pulls
    // after a pull, the flag is the pull's result and the caches are the pull's
    ensures MustPull(s, update) ==>
              r.initialized == o.ok && r.vendors == o.vendors &&
              r.filaments == o.filaments && r.spools == o.spools
    // an initialised client that is not asked to update is left as it is
    ensures !MustPull(s, update) ==> r == s
  {
    if MustPull(s, update) then Pulled(s, o) else s
  }

  /** The spool pointer `get_spoolman_spool_by_id` returns and the state it leaves. */
  datatype ByIdResult = ByIdResult(spool: Option<Spool>, state: ClientState)

  function SpoolById(s: ClientState, id: int, update: bool, o: PullOutcome): (r: ByIdResult)
    // the lookup happens after the refresh, and only touches the spool cache
    ensures var t := Refresh(s, update, o);
      && r.state.vendors == t.vendors && r.state.filaments == t.filaments
      && r.state.initialized == t.initialized && r.state.pulls == t.pulls
      // the result is what the spool cache now holds under `id`
      && r.state.spools.Keys == t.spools.Keys + {id}
      && r.state.spools[id] == r.spool
      // a hit returns the cached spool and changes nothing
      && (id in t.spools ==> r.spool == t.spools[id] && r.state == t)
      // a miss returns null and adds a null entry under `id`, leaving every other entry alone
      && (id !in t.spools ==>
            r.spool == None && |r.state.spools| == |t.spools| + 1 &&
            forall k :: k in t.spools ==> r.state.spools[k] == t.spools[k])
  {
    var t := Refresh(s, update, o);
    var access := Subscript(t.spools, id);
    ByIdResult(access.value, t.(spools := access.after))
  }

  // ---------------------------------------------------------------------------------
  // Reference integrity of the cached entity graph.
  // ---------------------------------------------------------------------------------

  /** A reference resolves when it is not null and the cache holds that very object under its id. */
  predicate VendorResolves(ref: Option<Vendor>, vendors: Cache<Vendor>)
  {
    ref.Some? && ref.value.id in vendors && vendors[ref.value.id] == ref
  }

  predicate FilamentResolves(ref: Option<Filament>, filaments: Cache<Filament>)
  {
    ref.Some? && ref.value.id in filaments && filaments[ref.value.id] == ref
  }

  /**
   * Every cached entity sits under its own id, and every cached filament and spool
   * references a parent present in the parent cache. Null entries are allowed.
   */
  predicate Linked(vendors: Cache<Vendor>, filaments: Cache<Filament>, spools: Cache<Spool>)
  {
    && (forall k :: k in vendors && vendors[k].Some? ==> vendors[k].value.id == k)
    && (forall k :: k in filaments && filaments[k].Some? ==>
          filaments[k].value.id == k && VendorResolves(filaments[k].value.vendor, vendors))
    && (forall k :: k in spools && spools[k].Some? ==>
          spools[k].value.id == k && FilamentResolves(spools[k].value.filament, filaments))
  }

  /** A cached spool of a linked graph reaches a cached vendor, through its cached filament. */
  lemma SpoolReachesCachedVendor(s: ClientState, key: int)
    requires Linked(s.vendors, s.filaments, s.spools)
    requires key in s.spools && s.spools[key].Some?
    ensures var spool := s.spools[key].value;
      && spool.filament.Some?
      && spool.filament.value.id in s.filaments
      && s.filaments[spool.filament.value.id] == spool.filament
      && VendorResolves(spool.GetVendor(), s.vendors)
  {
  }

  // ---------------------------------------------------------------------------------
  // The client object.
  // ---------------------------------------------------------------------------------

  /** Stands for the static member `Spoolman::m_instance` of the running program. */
  class Process {
    var instance: Spoolman?
    /** how many Spoolman objects have been constructed */
    ghost var constructions: nat

    ghost predicate Valid()
      reads this
    {
      (instance == null <==> constructions == 0) && constructions <= 1
    }

    constructor ()
      ensures Valid() && instance == null && constructions == 0
    {
      instance := null;
      constructions := 0;
    }

    /** get_instance: constructs the client on first use, and returns the one instance. */
    method GetInstance(outcome: PullOutcome) returns (spoolman: Spoolman)
      requires Valid()
      modifies this
      ensures Valid() && instance == spoolman
      ensures old(instance) != null ==> spoolman == old(instance) && constructions == old(constructions)
      ensures old(instance) == null ==>
                fresh(spoolman) && constructions == 1 && spoolman.State() == Pulled(Blank, outcome)
    {
      if instance == null {
        var _ := new Spoolman(this, outcome);
      }
      spoolman := instance;
    }

    /** Two calls of get_instance return the same pointer, whatever the first one pulled. */
    method GetInstanceTwice(first: PullOutcome, second: PullOutcome) returns (a: Spoolman, b: Spoolman)
      requires Valid()
      modifies this
      ensures Valid() && a == b && instance == a
      ensures constructions == 1
    {
      a := GetInstance(first);
      b := GetInstance(second);
    }
  }

  class Spoolman {
    var initialized: bool
    var vendors: Cache<Vendor>
    var filaments: Cache<Filament>
    var spools: Cache<Spool>
    /** how many times `pull_spoolman_spools` has run on this object */
    ghost var pulls: nat

    ghost function State(): ClientState
      reads this
    {
      ClientState(vendors, filaments, spools, initialized, pulls)
    }

    /**
     * Registers itself as the instance first, then pulls and records the pull's result.
     * The constructor is private: it runs only from `get_instance`, when there is no instance yet.
     */
    constructor (process: Process, outcome: PullOutcome)
      requires process.instance == null
      modifies process
      ensures process.instance == this && process.constructions == old(process.constructions) + 1
      ensures State() == Pulled(Blank, outcome)
    {
      initialized := false;
      vendors, filaments, spools := map[], map[], map[];
      pulls := 0;
      new;
      process.instance := this;
      process.constructions := process.constructions + 1;
      initialized := Pull(process, outcome);
    }

    /**
     * pull_spoolman_spools: fetches and parses the server's spool list, building the
     * entities through the constructors above, which reach this object as the current
     * instance. Only its outcome is modelled.
     */
    method Pull(process: Process, outcome: PullOutcome) returns (ok: bool)
      requires process.instance == this
      modifies this
      ensures ok == outcome.ok
      ensures vendors == outcome.vendors && filaments == outcome.filaments && spools == outcome.spools
      ensures initialized == old(initialized) && pulls == old(pulls) + 1
    {
      vendors, filaments, spools := outcome.vendors, outcome.filaments, outcome.spools;
      pulls := pulls + 1;
      ok := outcome.ok;
    }

    /** get_spoolman_spools */
    method GetSpools(process: Process, update: bool, outcome: PullOutcome) returns (r: Cache<Spool>)
      requires process.instance == this
      modifies this
      ensures State() == Refresh(old(State()), update, outcome) && r == spools
      ensures !update && old(initialized) ==> unchanged(this)
      ensures update || !old(initialized) ==> pulls == old(pulls) + 1 && initialized == outcome.ok
    {
      if update || !initialized {
        initialized := Pull(process, outcome);
      }
      r := spools;
    }

    /** get_spoolman_spool_by_id */
    method GetSpoolById(process: Process, id: int, update: bool, outcome: PullOutcome) returns (r: Option<Spool>)
      requires process.instance == this
      modifies this
      ensures ByIdResult(r, State()) == SpoolById(old(State()), id, update, outcome)
      ensures update || !old(initialized) ==> pulls == old(pulls) + 1 && initialized == outcome.ok
      ensures !update && old(initialized) ==>
                pulls == old(pulls) && initialized && vendors == old(vendors) && filaments == old(filaments)
      ensures !update && old(initialized) && id in old(spools) ==> r == old(spools)[id] && unchanged(this)
      ensures !update && old(initialized) && id !in old(spools) ==> r == None && spools == old(spools)[id := None]
    {
      if update || !initialized {
        initialized := Pull(process, outcome);
      }
      var access := Subscript(spools, id);
      spools := access.after;
      r := access.value;
    }
  }
}
