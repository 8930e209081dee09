/** The Experiment class of Mouser/shared/experiment.py: a mutable
    configuration record whose setters assign its attributes in place, two of
    them raising a change flag when the stored value actually changes, and a
    save that hands the record to the database and encryption collaborators.
    Every mutating method is tied to ExperimentState.Apply, so the lemmas about
    Apply and Run describe the object too. */
module SharedExperiment {
  import opened ExperimentState

  class Experiment {
    var name: string
    var investigators: seq<string>
    var species: string
    var items: seq<string>
    var id: string
    var rfid: bool
    var numAnimals: string
    var numGroups: string
    var maxPerCage: string
    var animalsPerGroup: string
    var groupNames: seq<string>
    var dataCollectType: seq<string>
    var dateCreated: string
    var password: Option<string>
    var groupNumChanged: bool
    var measurementItemsChanged: bool

    /** The group count and the items as they were when their flag was last
        lowered (at construction or by a clear method). */
    ghost var numGroupsAtClear: string
    ghost var itemsAtClear: seq<string>

    /** The record's attributes as one value. */
    ghost function Snapshot(): State
      reads this
    {
      State(name, investigators, species, items, id, rfid, numAnimals, numGroups,
            maxPerCage, animalsPerGroup, groupNames, dataCollectType, dateCreated,
            password, groupNumChanged, measurementItemsChanged)
    }

    /** A lowered flag means its attribute still holds the value it held
        when the flag was last lowered. */
    ghost predicate Valid()
      reads this
    {
      && (!groupNumChanged ==> numGroups == numGroupsAtClear)
      && (!measurementItemsChanged ==> items == itemsAtClear)
    }

    /** A fresh record; `today` stands for the date the source reads from
        the clock. */
    constructor (today: string)
      ensures Valid()
      ensures name == "" && investigators == [] && species == "" && items == []
      ensures id == "" && !rfid && numAnimals == "" && numGroups == "0"
      ensures maxPerCage == "" && animalsPerGroup == "" && groupNames == []
      ensures dataCollectType == [] && dateCreated == today && password == None
      ensures !groupNumChanged && !measurementItemsChanged
    {
      name := "";
      investigators := [];
      species := "";
      items := [];
      id := "";
      rfid := false;
      numAnimals := "";
      numGroups := "0";
      maxPerCage := "";
      animalsPerGroup := "";
      groupNames := [];
      dataCollectType := [];
      dateCreated := today;
      password := None;
      groupNumChanged := false;
      measurementItemsChanged := false;
      numGroupsAtClear := "0";
      itemsAtClear := [];
    }

    // ---------------------------------------------------------------
    // Plain setters: each assigns one attribute and nothing else
    // ---------------------------------------------------------------

    method SetName(n: string)
      requires Valid()
      modifies this`name
      ensures Valid() && name == n
      ensures Snapshot() == Apply(old(Snapshot()), Command.SetName(n))
    {
      name := n;
    }

    method SetInvestigators(v: seq<string>)
      requires Valid()
      modifies this`investigators
      ensures Valid() && investigators == v
      ensures Snapshot() == Apply(old(Snapshot()), Command.SetInvestigators(v))
    {
      investigators := v;
    }

    method SetSpecies(v: string)
      requires Valid()
      modifies this`species
      ensures Valid() && species == v
      ensures Snapshot() == Apply(old(Snapshot()), Command.SetSpecies(v))
    {
      species := v;
    }

    method SetUsesRfid(b: bool)
      requires Valid()
      modifies this`rfid
      ensures Valid() && rfid == b
      ensures Snapshot() == Apply(old(Snapshot()), Command.SetUsesRfid(b))
    {
      rfid := b;
    }

    method SetNumAnimals(n: string)
      requires Valid()
      modifies this`numAnimals
      ensures Valid() && numAnimals == n
      ensures Snapshot() == Apply(old(Snapshot()), Command.SetNumAnimals(n))
    {
      numAnimals := n;
    }

    method SetMaxAnimals(n: string)
      requires Valid()
      modifies this`maxPerCage
      ensures Valid() && maxPerCage == n
      ensures Snapshot() == Apply(old(Snapshot()), Command.SetMaxAnimals(n))
    {
      maxPerCage := n;
    }

    /** `freshId` stands for the identifier the source draws from uuid1. */
    method SetUniqueId(freshId: string)
      requires Valid()
      modifies this`id
      ensures Valid() && id == freshId
      ensures Snapshot() == Apply(old(Snapshot()), Command.SetUniqueId(freshId))
    {
      id := freshId;
    }

    method SetGroupNames(v: seq<string>)
      requires Valid()
      modifies this`groupNames
      ensures Valid() && groupNames == v
      ensures Snapshot() == Apply(old(Snapshot()), Command.SetGroupNames(v))
    {
      groupNames := v;
    }

    method SetCollectionTypes(v: seq<string>)
      requires Valid()
      modifies this`dataCollectType
      ensures Valid() && dataCollectType == v
      ensures Snapshot() == Apply(old(Snapshot()), Command.SetCollectionTypes(v))
    {
      dataCollectType := v;
    }

    method SetAnimalsPerGroup(n: string)
      requires Valid()
      modifies this`animalsPerGroup
      ensures Valid() && animalsPerGroup == n
      ensures Snapshot() == Apply(old(Snapshot()), Command.SetAnimalsPerGroup(n))
    {
      animalsPerGroup := n;
    }

    method SetPassword(p: Option<string>)
      requires Valid()
      modifies this`password
      ensures Valid() && password == p
      ensures Snapshot() == Apply(old(Snapshot()), Command.SetPassword(p))
    {
      password := p;
    }

    // ---------------------------------------------------------------
    // Tracked setters and the clear methods
    // ---------------------------------------------------------------

    /** Stores `v` and raises the items flag when `v` differs from the stored
        items; an equal list leaves both untouched. */
    method SetMeasurementItems(v: seq<string>)
      requires Valid()
      modifies this`items, this`measurementItemsChanged
      ensures Valid() && items == v
      ensures measurementItemsChanged == (old(measurementItemsChanged) || old(items) != v)
      ensures Snapshot() == Apply(old(Snapshot()), Command.SetMeasurementItems(v))
    {
      if items != v {
        measurementItemsChanged := true;
        items := v;
      }
    }

    /** Stores `n` and raises the group flag when `n` differs from the stored
        group count; an equal value leaves both untouched. */
    method SetNumGroups(n: string)
      requires Valid()
      modifies this`numGroups, this`groupNumChanged
      ensures Valid() && numGroups == n
      ensures groupNumChanged == (old(groupNumChanged) || old(numGroups) != n)
      ensures Snapshot() == Apply(old(Snapshot()), Command.SetNumGroups(n))
    {
      if numGroups != n {
        numGroups := n;
        groupNumChanged := true;
      }
    }

    method SetGroupNumChangedFalse()
      requires Valid()
      modifies this`groupNumChanged, this`numGroupsAtClear
      ensures Valid() && !groupNumChanged && numGroupsAtClear == numGroups
      ensures Snapshot() == Apply(old(Snapshot()), Command.SetGroupNumChangedFalse)
    {
      groupNumChanged := false;
      numGroupsAtClear := numGroups;
    }

    method SetMeasurementItemsChangedFalse()
      requires Valid()
      modifies this`measurementItemsChanged, this`itemsAtClear
      ensures Valid() && !measurementItemsChanged && itemsAtClear == items
      ensures Snapshot() == Apply(old(Snapshot()), Command.SetMeasurementItemsChangedFalse)
    {
      measurementItemsChanged := false;
      itemsAtClear := items;
    }

    // ---------------------------------------------------------------
    // Getters: read one attribute, change nothing
    // ---------------------------------------------------------------

    method GetName() returns (r: string)
      ensures r == name
    {
      r := name;
    }

    method GetInvestigators() returns (r: seq<string>)
      ensures r == investigators
    {
      r := investigators;
    }

    method GetSpecies() returns (r: string)
      ensures r == species
    {
      r := species;
    }

    method GetMeasurementItems() returns (r: seq<string>)
      ensures r == items
    {
      r := items;
    }

    method UsesRfid() returns (r: bool)
      ensures r == rfid
    {
      r := rfid;
    }

    method GetNumAnimals() returns (r: string)
      ensures r == numAnimals
    {
      r := numAnimals;
    }

    method GetNumGroups() returns (r: string)
      ensures r == numGroups
    {
      r := numGroups;
    }

    method GetMaxAnimals() returns (r: string)
      ensures r == maxPerCage
    {
      r := maxPerCage;
    }

    method GetGroupNames() returns (r: seq<string>)
      ensures r == groupNames
    {
      r := groupNames;
    }

    method GetCollectionTypes() returns (r: seq<string>)
      ensures r == dataCollectType
    {
      r := dataCollectType;
    }

    method GetPassword() returns (r: Option<string>)
      ensures r == password
    {
      r := password;
    }

    /** True exactly when the group flag is raised: with Valid(), a false
        answer guarantees the group count is the one last acknowledged. */
    method CheckNumGroupsChange() returns (r: bool)
      requires Valid()
      ensures r == groupNumChanged
      ensures !r ==> numGroups == numGroupsAtClear
    {
      r := groupNumChanged;
    }

    /** True exactly when the items flag is raised: with Valid(), a false
        answer guarantees the items are the ones last acknowledged. */
    method CheckMeasurementItemsChanged() returns (r: bool)
      requires Valid()
      ensures r == measurementItemsChanged
      ensures !r ==> items == itemsAtClear
    {
      r := measurementItemsChanged;
    }

    // ---------------------------------------------------------------
    // Saving
    // ---------------------------------------------------------------

    /** The requests a save makes, in order: open the database file chosen by
        the path rule, set up the experiment row, the groups, the cages, the
        measurement items and the collected-data table, and then, only when a
        password is set, encrypt that same file. The creation date is not
        among the values handed over. */
    method SaveToDatabase(directory: string) returns (actions: seq<Action>)
      ensures |actions| == if PasswordSet(password) then 7 else 6
      ensures actions[0] == OpenDatabase(SavePath(directory, name, password))
      ensures actions[1] == SetupExperiment(name, species, rfid, numAnimals, numGroups, maxPerCage, id)
      ensures actions[2] == SetupGroups(groupNames)
      ensures actions[3] == SetupCages(numAnimals, numGroups, maxPerCage)
      ensures actions[4] == SetupMeasurementItems(dataCollectType)
      ensures actions[5] == SetupCollectedData(items)
      ensures PasswordSet(password) ==>
                actions[6] == EncryptFile(password.value, SavePath(directory, name, password))
      ensures (exists i :: 0 <= i < |actions| && actions[i].EncryptFile?) <==> PasswordSet(password)
    {
      var file: string;
      if PasswordSet(password) {
        file := directory + "/" + name + ".pmouser";
      } else {
        file := directory + "/" + name + ".mouser";
      }
      actions := [OpenDatabase(file)];
      actions := actions + [SetupExperiment(name, species, rfid, numAnimals, numGroups, maxPerCage, id)];
      actions := actions + [SetupGroups(groupNames)];
      actions := actions + [SetupCages(numAnimals, numGroups, maxPerCage)];
      actions := actions + [SetupMeasurementItems(dataCollectType)];
      actions := actions + [SetupCollectedData(items)];
      if PasswordSet(password) {
        actions := actions + [EncryptFile(password.value, file)];
      }
    }
  }

  /** Usage example only, not a property of the record: a client run of the
      group-count scenario: a new record holds "0"
      groups; setting "3" raises the flag, setting "3" again keeps it raised,
      and the clear method lowers it. */
  method GroupCountScenario(today: string)
  {
    var e := new Experiment(today);
    e.SetName("trial1");
    e.SetNumGroups("3");
    var changed := e.CheckNumGroupsChange();
    assert changed;
    e.SetNumGroups("3");
    changed := e.CheckNumGroupsChange();
    assert changed && e.numGroups == "3";
    e.SetGroupNumChangedFalse();
    changed := e.CheckNumGroupsChange();
    assert !changed && e.name == "trial1";
  }
}
