# Spoolman cache client — a Dafny model

This project models the Spoolman client of the Slic3r-family slicer
(`src/slic3r/Utils/Spoolman.hpp`). The client is a single object, `Spoolman`. It
pulls the spool inventory from a Spoolman server and keeps it in three id-keyed caches:

- a vendor cache;
- a filament cache, where each filament points to its vendor;
- a spool cache, where each spool points to its filament.

A flag, `m_initialized`, records whether the last pull succeeded. The two public
getters pull again when the caller asks for an update or when the client is not
initialised. The client is reached only through `get_instance`, which creates it on
first use. Every cache lookup goes through `std::map::operator[]`. So looking up an id
that is not cached inserts a null entry under it and returns null.

Files:

- `wrappers.dfy` — `Option`. `None` stands for a null `shared_ptr`.
- `std_map.dfy` — module `StdMap`. It models `operator[]` on a `std::map<int, shared_ptr<T>>`.
- `spoolman.dfy` — module `Slic3r`, one module for the header. It holds:
  - the entity classes `Vendor`, `Filament` and `Spool`, whose constructors resolve their parent through `operator[]`;
  - the `Spoolman` class, with the three caches, the flag and a ghost pull counter;
  - `Process`, which stands for the static `Spoolman::m_instance` and counts constructions;
  - the client's state as a value (`ClientState`), and the functions `Refresh` and `SpoolById` that specify the getters;
  - `Linked`, the reference-integrity predicate of the cached graph.
- `sessions.dfy` — module `Sessions`. It models sequences of getter calls, with lemmas about how many pulls they cause, what they add to the spool cache, and which graph properties they keep.

A pull's HTTP request and parsing are not visible in the header. A pull is therefore a
step whose outcome is a parameter (`PullOutcome`). The outcome holds the success flag
and the three caches the pull leaves behind. This covers every outcome in which the
pull returns normally, including leaving the old caches on failure or leaving partial
ones. The pull method requires that `m_instance` already points to the object being
pulled into, because the entity constructors it runs read `m_instance`. Because of
this, the verifier checks that the `Spoolman` constructor registers itself before it
pulls.

The entity constructors never fail on an unresolved parent id. `operator[]`
(Spoolman.hpp:120, 156) inserts a null entry into the parent cache, and the new
entity's reference is null. `Linked` is the reference-integrity predicate of the cached
graph: every cached entity sits under its own id, and every cached filament and spool
references a non-null parent cached under that parent's id. The lemmas in `Sessions`
assume it of each pull's outcome and show that the getters keep it.

## Model

| member | source | states |
|---|---|---|
| `StdMap.Subscript` | src/slic3r/Utils/Spoolman.hpp:58 | `operator[]` returns the entry stored under the key. On a miss it first adds exactly one entry, a null one, under that key. Every existing entry is untouched, and a hit changes nothing. |
| `Slic3r.Vendor.constructor` | src/slic3r/Utils/Spoolman.hpp:85 | A vendor takes its id and name from its JSON object. It has no parent to resolve. |
| `Slic3r.Filament.constructor` | src/slic3r/Utils/Spoolman.hpp:118-122 | The vendor reference is the instance's vendor-cache entry for `vendor.id`. On a miss the vendor cache gains a null entry for that id and the reference is null. The other caches, the flag and the pull count are unchanged. |
| `Slic3r.Spool.constructor` | src/slic3r/Utils/Spoolman.hpp:154-158 | The filament reference is the instance's filament-cache entry for `filament.id`. A miss inserts a null entry in the same way. Nothing else in the client changes. |
| `Slic3r.SpoolReachesCachedVendor` | src/slic3r/Utils/Spoolman.hpp:143-145 | About `Slic3r.Spool.GetVendor`, the `getVendor` accessor, which is defined only for a non-null filament pointer and reads the vendor through the filament. In a linked graph, a cached spool's filament is non-null and is the cached filament under its id. Its `GetVendor()` is non-null and is the cached vendor under its id. |
| `Slic3r.Refresh` | src/slic3r/Utils/Spoolman.hpp:47-52 | There is exactly one pull when `update` is set or the client is uninitialised, and none otherwise. After a pull, `m_initialized` is the pull's result and the caches are the pull's. Otherwise the state is unchanged. |
| `Slic3r.SpoolById` | src/slic3r/Utils/Spoolman.hpp:54-59 | The refresh rule runs first. The result is then the spool cache's entry for `id`. On a hit nothing else changes. On a miss the result is null, the spool cache gains exactly one null entry under `id`, and every other entry is unchanged. Vendors, filaments, the flag and the pull count are untouched by the lookup. |
| `Slic3r.Process.constructor` | src/slic3r/Utils/Spoolman.hpp:23 | `m_instance` starts as null, with no client constructed. |
| `Slic3r.Process.GetInstance` | src/slic3r/Utils/Spoolman.hpp:61-66 | If an instance exists, that pointer is returned and nothing is constructed. Otherwise exactly one client is constructed, having pulled once, and it becomes the instance. At most one client is ever constructed. |
| `Slic3r.Process.GetInstanceTwice` | src/slic3r/Utils/Spoolman.hpp:61-66 | Two calls of `get_instance` return the same pointer, and only one client is ever constructed. |
| `Slic3r.Spoolman.constructor` | src/slic3r/Utils/Spoolman.hpp:31-35 | The constructor is private and runs only while there is no instance, as `get_instance` calls it. It sets `m_instance` to itself, which the pull it then runs requires. It then pulls once, and `m_initialized` is that pull's result. |
| `Slic3r.Spoolman.Pull` | src/slic3r/Utils/Spoolman.hpp:37-39 | A pull returns its success flag and replaces the three caches with the ones it built. It increments the pull count and does not touch `m_initialized`. It requires `m_instance` to be this object. |
| `Slic3r.Spoolman.GetSpools` | src/slic3r/Utils/Spoolman.hpp:47-52 | The new state is `Refresh` of the old one, and the spool cache is returned. When not updating and already initialised, the object is unchanged. Otherwise exactly one pull runs, and `m_initialized` is its result. |
| `Slic3r.Spoolman.GetSpoolById` | src/slic3r/Utils/Spoolman.hpp:54-59 | The returned pointer and the new state are `SpoolById` of the old state. On an initialised client without `update`, a hit changes nothing and a miss adds exactly `id` bound to null. |
| `Sessions.PullsBounded` | src/slic3r/Utils/Spoolman.hpp:47-59 | A sequence of getter calls performs at least one pull per forced call and at most one pull per call. |
| `Sessions.CachedSessionNeverPulls` | src/slic3r/Utils/Spoolman.hpp:47-59 | On an initialised client, calls that do not ask for an update never pull. The flag stays set and the vendor and filament caches are unchanged. The spool cache only gains null entries for the looked-up ids it lacked. |
| `Sessions.FailingServerPullsEveryCall` | src/slic3r/Utils/Spoolman.hpp:49-57 | An uninitialised client pulls on every call, forced or not, as long as pulls fail, and it stays uninitialised. |
| `Sessions.RunKeepsLinked` | src/slic3r/Utils/Spoolman.hpp:54-59 | The null entries inserted by lookups never create a dangling reference. If the graph starts linked and every pull leaves it linked, then it is linked after any sequence of calls. |
| `Sessions.LookupAfterPull` | src/slic3r/Utils/Spoolman.hpp:54-59 | Looking up an id with `update` set returns the spool that the pull cached under that id. Its `id` is the one asked for, and the spool cache is exactly the pull's. |

## Left out

- `pull_spoolman_spools` and `get_spoolman_json` (Spoolman.hpp:37-39): their bodies, an HTTP request and JSON parsing, are not part of this model. A pull's flag and resulting caches are a parameter. Whether a failed pull keeps or clears the old caches is therefore not fixed, and the `Linked` lemmas assume each pull establishes `Linked`.
- `update_from_json`: its body is not part of this model. The constructors copy the fields of an already-parsed record (`VendorJson`, `FilamentJson`, `SpoolJson`).
- The exception that `ptree::get<int>` throws on a missing or non-integer `vendor.id` or `filament.id` is not modelled. Records always carry the id.
- `update_from_server` for vendor, filament and spool, `apply_to_config`, `create_filament_preset_from_spool` and `update_filament_preset_from_spool` are declared only. They depend on the network and on `Preset`/`DynamicConfig`, which are not part of this model.
- Floating-point fields (`price`, `density`, `diameter`, spool weights and lengths) are omitted.
- The entities' `m_spoolman` back-pointer is dropped. Only the left-out operations use it. The constructors take the process holding `m_instance` instead.
- `Slic3r.Spool.GetVendor`: `getVendor` returns a reference to the filament's `m_vendor_ptr`, so writing through it would change the filament. The model returns the pointer's value. Entity fields are `const` because no modelled code reassigns them after construction.
- `Slic3r.Spoolman.GetSpools`: `get_spoolman_spools` returns a `const` reference to `m_spools`. The model returns a snapshot of the spool cache. A caller that keeps the C++ reference later sees the null entries that `get_spoolman_spool_by_id` inserts and the caches a later pull installs; that aliasing is not captured.
- Exceptions escaping `pull_spoolman_spools` (from `ptree::get<int>` in an entity constructor, or from the HTTP and parsing path) are not modelled. `Slic3r.Spoolman.Pull` always returns normally, leaves `m_initialized` alone and never writes `m_instance`. An exception escaping the pull inside the constructor would leave `m_instance` pointing at an object whose construction failed, because line 33 has already run.
- Raw-pointer lifetime of the singleton and thread safety of `get_instance` are not modelled. These are concurrency and memory management concerns.
- `src/slic3r/Utils/FlashForge.hpp` (a print-host wrapper over HTTP and serial commands) and `resources/web/guide/5/5.js` (setup-wizard UI) are outside this model.
