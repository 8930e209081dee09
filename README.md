# Mouser experiment record, modelled in Dafny

Mouser tracks laboratory-animal experiments. Its `Experiment` class
(`Mouser/shared/experiment.py`) is a mutable configuration record for one
experiment. It holds the experiment's name, investigators, species, RFID use,
animal, group and cage counts, group names, collection types, measurement
items, identifier, creation date and optional password. Setters assign these
attributes in place. Two of them keep a change flag: `set_num_groups` raises
`group_num_changed` and `set_measurement_items` raises
`measurement_items_changed`, each only when the new value differs from the
stored one. Two clear methods lower the flags again. `save_to_database` picks
the file `<directory>/<name>.pmouser` when a password is set and
`<directory>/<name>.mouser` otherwise. It then hands the record to the
experiment database in a fixed order and encrypts the file when a password is
set.

The project has two modules:

- `experiment_state.dfy`, module `ExperimentState`. The record as a value
  (`State`), one setter call as a `Command`, and the effect of a call
  (`Apply`) and of a series of calls (`Run`). It also holds the save-path rule
  (`SavePath`), the collaborator requests a save makes (`Action`), and the
  lemmas: frames, the flag laws, flags that stay raised until cleared, and the
  path rule.
- `experiment.dfy`, module `SharedExperiment`. The class `Experiment`, whose
  fields are the record's attributes. Each mutating method has a field-level
  `modifies` frame and ensures `Snapshot() == Apply(old(Snapshot()), cmd)`, so
  the lemmas about `Apply` and `Run` apply to the object. A ghost baseline per
  flag and the invariant `Valid()` state that a lowered flag means the
  attribute still holds the value it had when the flag was last lowered. For
  the measurement items this holds only while the stored list is changed
  through `set_measurement_items` alone (see "Left out" on aliasing).
  `SaveToDatabase` returns the list of collaborator requests it makes.

Python truthiness of the password is modelled by `PasswordSet`: `None` and
`""` are false, so both give a `.mouser` path and no encryption.

## Model

| member | source | states |
|---|---|---|
| `SharedExperiment.Experiment.constructor` | Mouser/shared/experiment.py:9-27 | A new record has `num_groups` "0", both flags false, no password, `rfid` false, empty strings and lists elsewhere, and the given creation date. |
| `SharedExperiment.Experiment.SetName` | Mouser/shared/experiment.py:29-31 | Stores the name. Only `name` may change, and the new record is `Apply` of the call. |
| `SharedExperiment.Experiment.SetInvestigators` | Mouser/shared/experiment.py:33-35 | Stores the investigators. Only that field may change. |
| `SharedExperiment.Experiment.SetSpecies` | Mouser/shared/experiment.py:37-39 | Stores the species. Only that field may change. |
| `SharedExperiment.Experiment.SetMeasurementItems` | Mouser/shared/experiment.py:41-45 | Afterwards the items equal the argument. The items flag is true iff it was true before or the argument differed from the stored items. Nothing else changes. |
| `SharedExperiment.Experiment.SetUsesRfid` | Mouser/shared/experiment.py:47-49 | Stores the RFID choice. Only that field may change. |
| `SharedExperiment.Experiment.SetNumAnimals` | Mouser/shared/experiment.py:51-53 | Stores the animal count. Only that field may change. |
| `SharedExperiment.Experiment.SetNumGroups` | Mouser/shared/experiment.py:55-59 | Afterwards the group count equals the argument. The group flag is true iff it was true before or the argument differed from the stored count. Nothing else changes. |
| `SharedExperiment.Experiment.SetMaxAnimals` | Mouser/shared/experiment.py:61-63 | Stores the cage capacity. Only that field may change. |
| `SharedExperiment.Experiment.SetUniqueId` | Mouser/shared/experiment.py:65-68 | Stores the supplied identifier. Only `id` may change. |
| `SharedExperiment.Experiment.SetGroupNames` | Mouser/shared/experiment.py:70-72 | Stores the group names. Only that field may change. |
| `SharedExperiment.Experiment.SetCollectionTypes` | Mouser/shared/experiment.py:74-76 | Stores the collection types. Only that field may change. |
| `SharedExperiment.Experiment.SetAnimalsPerGroup` | Mouser/shared/experiment.py:78-80 | Stores the animals per group. Only that field may change. |
| `SharedExperiment.Experiment.SetPassword` | Mouser/shared/experiment.py:82-84 | Stores the password. Only that field may change. |
| `SharedExperiment.Experiment.SetGroupNumChangedFalse` | Mouser/shared/experiment.py:86-88 | Lowers the group flag and re-anchors its baseline. No attribute other than the flag changes. |
| `SharedExperiment.Experiment.SetMeasurementItemsChangedFalse` | Mouser/shared/experiment.py:90-92 | Lowers the items flag and re-anchors its baseline. No attribute other than the flag changes. |
| `SharedExperiment.Experiment.GetName` | Mouser/shared/experiment.py:94-96 | Returns the stored name and changes nothing. |
| `SharedExperiment.Experiment.GetInvestigators` | Mouser/shared/experiment.py:98-100 | Returns the stored investigators and changes nothing. |
| `SharedExperiment.Experiment.GetSpecies` | Mouser/shared/experiment.py:102-104 | Returns the stored species and changes nothing. |
| `SharedExperiment.Experiment.GetMeasurementItems` | Mouser/shared/experiment.py:106-108 | Returns the stored items and changes nothing. |
| `SharedExperiment.Experiment.UsesRfid` | Mouser/shared/experiment.py:110-112 | Returns the stored RFID choice and changes nothing. |
| `SharedExperiment.Experiment.GetNumAnimals` | Mouser/shared/experiment.py:114-116 | Returns the stored animal count and changes nothing. |
| `SharedExperiment.Experiment.GetNumGroups` | Mouser/shared/experiment.py:118-120 | Returns the stored group count and changes nothing. |
| `SharedExperiment.Experiment.GetMaxAnimals` | Mouser/shared/experiment.py:122-124 | Returns the stored cage capacity and changes nothing. |
| `SharedExperiment.Experiment.GetGroupNames` | Mouser/shared/experiment.py:126-128 | Returns the stored group names and changes nothing. |
| `SharedExperiment.Experiment.GetCollectionTypes` | Mouser/shared/experiment.py:130-132 | Returns the stored collection types and changes nothing. |
| `SharedExperiment.Experiment.GetPassword` | Mouser/shared/experiment.py:134-136 | Returns the stored password and changes nothing. |
| `SharedExperiment.Experiment.CheckNumGroupsChange` | Mouser/shared/experiment.py:138-140 | Returns the group flag and changes nothing. A false answer means the group count is the one held when the flag was last lowered. |
| `SharedExperiment.Experiment.CheckMeasurementItemsChanged` | Mouser/shared/experiment.py:142-144 | Returns the items flag and changes nothing. A false answer means the items are the ones held when the flag was last lowered, provided the stored list was changed only through `set_measurement_items` (see "Left out" on aliasing). |
| `SharedExperiment.Experiment.SaveToDatabase` | Mouser/shared/experiment.py:146-162 | Requests, in order: open the database at `SavePath`, then setup_experiment (name, species, rfid, animals, groups, capacity, id), setup_groups, setup_cages, setup_measurement_items (collection types) and setup_collected_data (items). An encryption of that same file with the password comes last, if and only if a password is set. The creation date is not passed. |
| `ExperimentState.SavePath` | Mouser/shared/experiment.py:148-151 | The path is the directory, "/", the name, then an extension. It ends in ".pmouser" iff the password is set, and it ends in ".mouser" iff the password is unset, `None` or "". |
| `ExperimentState.SavePathDeterminesName` | Mouser/shared/experiment.py:148-151 | Within one directory, two saves write the same file only if the name and the password choice are the same. |
| `ExperimentState.FrameOfCommand` | Mouser/shared/experiment.py:29-92 | Every setter or clear call changes at most the attributes it writes. With the contract of `Writes`, each plain setter writes exactly one attribute and never a flag, and each clear method writes only its own flag. |
| `ExperimentState.PlainSetterKeepsFlags` | Mouser/shared/experiment.py:29-84 | A plain setter leaves both flags as they were. Calling it twice with the same argument equals calling it once. |
| `ExperimentState.SetNumGroupsEffect` | Mouser/shared/experiment.py:55-59 | An equal group count changes nothing, the flag included. A different one is stored and raises the flag, and only those two attributes change. |
| `ExperimentState.SetMeasurementItemsEffect` | Mouser/shared/experiment.py:41-45 | Equal items change nothing, the flag included. Different items are stored and raise the flag, and only those two attributes change. |
| `ExperimentState.GroupFlagTracksChanges` | Mouser/shared/experiment.py:55-88 | Over calls with no group clear, the final group flag is true iff it started true or some call stored a different group count. Both directions are proved. |
| `ExperimentState.ItemsFlagTracksChanges` | Mouser/shared/experiment.py:41-92 | Over calls with no items clear, the final items flag is true iff it started true or some call stored different items. Both directions are proved. |
| `ExperimentState.GroupFlagSticky` | Mouser/shared/experiment.py:55-88 | Once raised, the group flag stays raised through any calls until the group clear runs. |
| `ExperimentState.ItemsFlagSticky` | Mouser/shared/experiment.py:41-92 | Once raised, the items flag stays raised through any calls until the items clear runs. |
| `ExperimentState.NumGroupsKeptWithoutChange` | Mouser/shared/experiment.py:55-59 | If no call stored a different group count, the group count at the end is the one at the start. |
| `ExperimentState.ItemsKeptWithoutChange` | Mouser/shared/experiment.py:41-45 | If no call stored different items, the items at the end are the ones at the start. |
| `ExperimentState.GroupFlagLoweredMeansUnchanged` | Mouser/shared/experiment.py:55-88 | If the group flag is down after the last group clear, the group count is the one held at that clear. |
| `ExperimentState.ItemsFlagLoweredMeansUnchanged` | Mouser/shared/experiment.py:41-92 | If the items flag is down after the last items clear, the items are the ones held at that clear. |

`SharedExperiment.GroupCountScenario` is a usage example only, a client of the class; it proves nothing beyond the contracts above. It runs a
short scenario: "0" becomes "3" and raises the flag, a second
"3" keeps the flag raised, and the clear lowers it.

## Left out

- `uuid.uuid1()` in `set_unique_id` reads the clock and the host. `SetUniqueId` takes the identifier as a parameter, so the uniqueness of identifiers across records is not modelled.
- `date.today()` in the constructor reads the clock. The constructor takes the date as a parameter.
- The behaviour of `ExperimentDatabase` (tables, cage provisioning, file I/O) and of `PasswordManager.encrypt_file` (cryptography) is not part of this model. `SaveToDatabase` records which requests are made, with which arguments and in which order. Exceptions raised by these collaborators, which the source lets propagate, are not modelled.
- The creation date is not persisted. The source leaves this as an open TODO, and the model keeps that gap: no action carries `date_created`.
- Python list aliasing: `set_investigators`, `set_group_names` and `set_collection_types` keep the caller's list, while `set_measurement_items` copies it. `get_investigators`, `get_measurement_items`, `get_group_names` and `get_collection_types` return the stored list itself, not a copy. Dafny sequences are values, so mutation of a shared list from outside the record cannot be expressed, and the copy/alias distinction is not captured.
- `SharedExperiment.Experiment.CheckMeasurementItemsChanged`, `SharedExperiment.Experiment.Valid` and `ExperimentState.ItemsFlagLoweredMeansUnchanged`: the guarantee that a lowered items flag means unchanged items assumes the stored items change only through `set_measurement_items`. In the source a caller can mutate the list returned by `get_measurement_items` in place: the items then change while the flag stays down, and passing that same list back to `set_measurement_items` compares the list with itself and raises nothing. The group-count guarantee is not affected, because Python strings are immutable.
- Dynamic typing: the counts are modelled as strings, the type of their defaults in the constructor (`'0'` and `''`). A caller passing `3` where `"3"` is stored would compare unequal in Python; the model admits only strings. Measurement items and collection types are modelled as lists of strings. The password is `None` or a string.
- `set_num_groups` and `set_measurement_items` write nothing at all when the new value equals the stored one; the model does the same. With value sequences this cannot be told apart from an unconditional assignment of the equal value.
