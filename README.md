# VRSL DMX patch-set occupancy mapper, in Dafny

The patch-set generator reads two fixture lists: the VRSL `fixtures` list and the
`gpu_readback_fixtures` list from the extras file. It turns them into two structures
for its report. The first, `dmx_universes`, maps each universe 1..9 to the fixtures
patched in it, sorted by start channel. The second, `dmx_universes_occupancy`, maps
each universe to a channel table in which every channel has a slot
`{used, main_channel}`.

This project models that mapper (`gen.py:58-89`) and proves what it computes:

- `dmx.dfy` (module `Dmx`): the fixture record and the slot, the VRSL limits kept as
  the source's exclusive bounds (`9 + 1`, `512 + 1`), and `InUniverse`. `InUniverse`
  is the list of fixtures the mapper appends for one universe.
- `occupancy.dfy` (module `Occupancy`): the specification of one universe's table.
  `Initial` is the pre-filled table. `Apply` writes one fixture's marks. `Replay` and
  `Table` fold those writes over a fixture list in order. The lemmas show that the
  table is dense, that the last writer wins, that extras override VRSL, that a
  universe's table depends only on its own fixtures, and what its key set is.
- `channel_sort.dfy` (module `ChannelSort`): Python's stable `sorted(…, key=channel)`,
  written as an insertion sort. Its lemmas prove the result is ordered by channel, is
  a permutation of the input, and is stable.
- `patch_set.dfy` (module `PatchSet`): the mapper itself, written imperatively in the
  source's shape. `ComputeOccupancy` runs the universe loop (`FillUniverses`). For
  each universe, `FillUniverse` runs the pre-fill loop, a pass over the VRSL list and
  a pass over the extras list (`ScanFixtures`, whose footprint loop is
  `MarkFixture`), and then the sort. Each method is proved against the specification
  functions above.
- `scenarios.dfy` (module `Scenarios`): three small patch lists worked through that
  specification.

Modelling choices:

- Each results table is a `map<int, Slot>`, just as it is a dict in Python. A
  footprint that runs past channel 512 therefore adds keys instead of failing, exactly
  as `gen.py:75-76` does. A start channel below 1 or above 512 also becomes a key.
  `TableKeys` states the resulting key set.
- The two per-source loops (`gen.py:70-76` and `gen.py:78-84`) are the same code.
  They are modelled once, as `ScanFixtures`, which is called for the VRSL list and then
  for the extras list with the list and table the first call produced.
- The universe loop is split across `FillUniverses` and `FillUniverse`. This keeps
  each proof small.
- The loaders do not check that `channelNames` is non-empty or that `channel` lies in
  1..512, and the model follows the code here. An empty `channelNames` still marks
  the start channel, because `range(channel + 1, channel + 0)` is empty
  (`PrimaryMarked`).
- Records are immutable values. The output lists therefore hold the input records
  unchanged (`UniverseList`), and the inputs of `ComputeOccupancy` cannot change.

## Model

| member | source | states |
|---|---|---|
| `PatchSet.ComputeOccupancy` | gen.py:58-89 | Both outputs are keyed by exactly the universes 1..9. For each universe `u`, the list is the stable channel sort of the fixtures of the VRSL list and then the extras list whose universe is `u`. The table is the last-writer-wins table of those fixtures over a dense pre-filled 1..512 table. |
| `PatchSet.FillUniverses` | gen.py:62-89 | The universe loop leaves `dmx_universes` and `dmx_universes_occupancy` equal to the dicts built for universes 1..9 in turn. |
| `PatchSet.ListsUpToAt` | gen.py:62-88 | After universes 1..n-1 have been filled, `dmx_universes` has exactly the keys 1..n-1. Each key holds the sorted selection for that universe. |
| `PatchSet.TablesUpToAt` | gen.py:62-89 | After universes 1..n-1 have been filled, `dmx_universes_occupancy` has exactly the keys 1..n-1. Each key holds that universe's table. |
| `PatchSet.FillUniverse` | gen.py:63-86 | One universe's iteration. The list it produces is the sorted selection of that universe's fixtures from VRSL then extras. The table is the pre-filled table after all their writes, in that order. |
| `PatchSet.ScanFixtures` | gen.py:70-84 | One pass over a fixture list. It appends exactly the fixtures of the universe, in list order, and leaves the table as those fixtures' writes replayed in list order. |
| `PatchSet.MarkFixture` | gen.py:74-76 | The start channel becomes `{True, True}`. Each channel `channel+1 .. channel+len(channelNames)-1` becomes `{True, False}`, and the table gains keys for any of those channels it lacked. Every other entry is unchanged. |
| `PatchSet.UniverseList` | gen.py:70-88 | A universe's list is non-decreasing by channel. It holds exactly the records of either list whose universe is `u`, with the same multiplicities. Among records with equal channel it keeps append order: VRSL first, then extras, each in its list order. |
| `Dmx.InUniverseAppend` | gen.py:70-80 | Appending the VRSL selection and then the extras selection gives the selection from the concatenated lists. |
| `Dmx.InUniverseCounts` | gen.py:71-72 | Each record occurs in the selection for `u` as often as in the input when its universe is `u`, and not at all otherwise. |
| `Dmx.InUniverseMembers` | gen.py:71-72 | A record is in the selection for `u` if and only if it is in the input and its universe is `u`. |
| `Occupancy.ReplayAppend` | gen.py:70-84 | Writing the concatenated list is the same as writing the VRSL list and then writing the extras list into the result. |
| `Occupancy.ReplayUntouched` | gen.py:70-84 | A channel no fixture of the universe covers keeps its previous entry, or stays absent if it was absent. |
| `Occupancy.ReplayLastWriter` | gen.py:70-84 | Whatever the starting table, a covered channel ends with the mark of the last fixture covering it: `{True, True}` at that fixture's start channel, `{True, False}` elsewhere. |
| `Occupancy.TableDense` | gen.py:66-67 | Every channel 1..512 has an entry. A channel no fixture of the universe covers stays `{used: False, main_channel: True}`. |
| `Occupancy.TableLastWriter` | gen.py:74-84 | In the mapper's table, a covered channel is `{True, c == channel}` of its last writer in processing order. |
| `Occupancy.TableKeys` | gen.py:66-84 | A channel is a key of the table if and only if it lies in 1..512 or some fixture of the universe covers it. Footprints past 512 add keys and do not fail. |
| `Occupancy.PrimaryMarked` | gen.py:74-75 | Right after a fixture is processed, its start channel is `{True, True}`. With at most one channel name, nothing else changes. |
| `Occupancy.ExtrasOverride` | gen.py:70-84 | On a channel some extras fixture covers, the table equals the extras-only table, so the VRSL fixtures make no difference. On any other channel, the table equals the VRSL-only table. |
| `Occupancy.ReplayIsolated` | gen.py:70-84 | A universe's table depends only on the fixtures whose universe it is. |
| `Occupancy.ForeignFixtureIgnored` | gen.py:62-84 | Inserting a fixture of another universe anywhere in the input changes neither the universe's table nor its list. This includes a fixture in a universe outside 1..9. |
| `ChannelSort.SortSorted` | gen.py:86 | The sorted list is non-decreasing by `channel`. |
| `ChannelSort.SortPermutes` | gen.py:86 | The sorted list is a permutation of its input. |
| `ChannelSort.SortStable` | gen.py:86 | For every channel value, the fixtures with that channel come out in the order they went in. |
| `Scenarios.SideBySide` | gen.py:62-89 | A dimmer at channel 1 (VRSL) and an RGB fixture at channel 5 (extras), both in universe 1, give the list `[dimmer, rgb]`. Channels 1 and 5 are primary, 6-7 are secondary, and 2-4 and 8-512 are unused. |
| `Scenarios.Overlap` | gen.py:70-84 | A VRSL fixture on 10-12 with an extras fixture on 11 leaves 10 primary, makes 11 primary (extras wins), and leaves 12 secondary. |
| `Scenarios.ForeignUniverse` | gen.py:62-84 | A fixture in universe 15 appears in no list of 1..9 and leaves every table as pre-filled. |

## Left out

- Argument parsing and the output-mode checks (`gen.py:14-25`): command-line plumbing.
- Reading the JSON and YAML files (`gen.py:50-56`) and writing the output file
  (`gen.py:92-95`): I/O. The parsed lists are the inputs of `ComputeOccupancy`.
- Jinja2 rendering and the generation timestamp (`gen.py:27-40`, `gen.py:91`): a
  foreign library and the wall clock.
- The console prints (`gen.py:43-47`) and the unimplemented PDF branch
  (`gen.py:97-98`): they contain no logic.
- The venue metadata (`dmx_extras['venue']`): it is passed straight to the renderer.
- Fixture record fields other than `universe`, `channel` and `channelNames`: the
  mapper only passes them through.
- The key order of the Python dicts: a Dafny `map` is unordered. The order in which
  the renderer walks a table is not modelled. In the source it is 1..512 first, then
  any overrun channels in the order they were written.
- Python's loose equality and typing: `universe` and `channel` are modelled as
  integers. The source would also match a JSON `1.0` or `true` to universe 1, and
  `range` would raise on a non-integer channel.
- Aliasing: the output lists share the input dict objects in Python. Nothing in the
  mapper mutates those objects, so the model uses values.
