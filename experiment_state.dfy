/** Value-level model of one lab-animal experiment's configuration record
    (Mouser/shared/experiment.py): the record itself, the setter calls that
    change it, the save-path rule and the collaborator actions a save requests.
    The class in experiment.dfy is proved against the functions here. */
module ExperimentState {

  datatype Option<T> = None | Some(value: T)

  /** Every attribute the record keeps, with its name from the source. */
  datatype State = State(
    name: string,
    investigators: seq<string>,
    species: string,
    items: seq<string>,
    id: string,
    rfid: bool,
    numAnimals: string,
    numGroups: string,
    maxPerCage: string,
    animalsPerGroup: string,
    groupNames: seq<string>,
    dataCollectType: seq<string>,
    dateCreated: string,
    password: Option<string>,
    groupNumChanged: bool,
    measurementItemsChanged: bool)

  /** One call of a mutating method of the record. `SetUniqueId` carries the
      identifier the source draws from uuid1. */
  datatype Command =
    | SetName(name: string)
    | SetInvestigators(investigators: seq<string>)
    | SetSpecies(species: string)
    | SetMeasurementItems(items: seq<string>)
    | SetUsesRfid(rfid: bool)
    | SetNumAnimals(num: string)
    | SetNumGroups(num: string)
    | SetMaxAnimals(num: string)
    | SetUniqueId(id: string)
    | SetGroupNames(names: seq<string>)
    | SetCollectionTypes(types: seq<string>)
    | SetAnimalsPerGroup(num: string)
    | SetPassword(password: Option<string>)
    | SetGroupNumChangedFalse
    | SetMeasurementItemsChangedFalse

  /** The effect of one call on the record. Only the two tracked setters
      compare before they write, and only they raise a change flag. */
  function Apply(s: State, c: Command): State
  {
    match c
    case SetName(n) => s.(name := n)
    case SetInvestigators(v) => s.(investigators := v)
    case SetSpecies(v) => s.(species := v)
    case SetMeasurementItems(v) =>
      if s.items != v then s.(measurementItemsChanged := true, items := v) else s
    case SetUsesRfid(b) => s.(rfid := b)
    case SetNumAnimals(n) => s.(numAnimals := n)
    case SetNumGroups(n) =>
      if s.numGroups != n then s.(numGroups := n, groupNumChanged := true) else s
    case SetMaxAnimals(n) => s.(maxPerCage := n)
    case SetUniqueId(u) => s.(id := u)
    case SetGroupNames(v) => s.(groupNames := v)
    case SetCollectionTypes(v) => s.(dataCollectType := v)
    case SetAnimalsPerGroup(n) => s.(animalsPerGroup := n)
    case SetPassword(p) => s.(password := p)
    case SetGroupNumChangedFalse => s.(groupNumChanged := false)
    case SetMeasurementItemsChangedFalse => s.(measurementItemsChanged := false)
  }

  /** The record after a series of calls, first call first. */
  function Run(s: State, cmds: seq<Command>): State
    decreases |cmds|
  {
    if cmds == [] then s else Run(Apply(s, cmds[0]), cmds[1..])
  }

  // ---------------------------------------------------------------------
  // Frames: which attributes a call may change
  // ---------------------------------------------------------------------

  datatype Field =
    | NameF | InvestigatorsF | SpeciesF | ItemsF | IdF | RfidF | NumAnimalsF
    | NumGroupsF | MaxPerCageF | AnimalsPerGroupF | GroupNamesF
    | DataCollectTypeF | DateCreatedF | PasswordF
    | GroupNumChangedF | MeasurementItemsChangedF

  /** The attributes on which two records disagree. */
  function Changed(s: State, t: State): (fs: set<Field>)
    ensures fs == {} <==> s == t
  {
    (if s.name != t.name then {NameF} else {})
    + (if s.investigators != t.investigators then {InvestigatorsF} else {})
    + (if s.species != t.species then {SpeciesF} else {})
    + (if s.items != t.items then {ItemsF} else {})
    + (if s.id != t.id then {IdF} else {})
    + (if s.rfid != t.rfid then {RfidF} else {})
    + (if s.numAnimals != t.numAnimals then {NumAnimalsF} else {})
    + (if s.numGroups != t.numGroups then {NumGroupsF} else {})
    + (if s.maxPerCage != t.maxPerCage then {MaxPerCageF} else {})
    + (if s.animalsPerGroup != t.animalsPerGroup then {AnimalsPerGroupF} else {})
    + (if s.groupNames != t.groupNames then {GroupNamesF} else {})
    + (if s.dataCollectType != t.dataCollectType then {DataCollectTypeF} else {})
    + (if s.dateCreated != t.dateCreated then {DateCreatedF} else {})
    + (if s.password != t.password then {PasswordF} else {})
    + (if s.groupNumChanged != t.groupNumChanged then {GroupNumChangedF} else {})
    + (if s.measurementItemsChanged != t.measurementItemsChanged
       then {MeasurementItemsChangedF} else {})
  }

  /** The attributes a call is allowed to write: one attribute and no
      change flag for a plain setter. */
  function Writes(c: Command): (fs: set<Field>)
    ensures IsPlainSetter(c) ==>
              |fs| == 1 && GroupNumChangedF !in fs && MeasurementItemsChangedF !in fs
  {
    match c
    case SetName(_) => {NameF}
    case SetInvestigators(_) => {InvestigatorsF}
    case SetSpecies(_) => {SpeciesF}
    case SetMeasurementItems(_) => {ItemsF, MeasurementItemsChangedF}
    case SetUsesRfid(_) => {RfidF}
    case SetNumAnimals(_) => {NumAnimalsF}
    case SetNumGroups(_) => {NumGroupsF, GroupNumChangedF}
    case SetMaxAnimals(_) => {MaxPerCageF}
    case SetUniqueId(_) => {IdF}
    case SetGroupNames(_) => {GroupNamesF}
    case SetCollectionTypes(_) => {DataCollectTypeF}
    case SetAnimalsPerGroup(_) => {AnimalsPerGroupF}
    case SetPassword(_) => {PasswordF}
    case SetGroupNumChangedFalse => {GroupNumChangedF}
    case SetMeasurementItemsChangedFalse => {MeasurementItemsChangedF}
  }

  /** The plain setters: unconditional assignment of one attribute. */
  predicate IsPlainSetter(c: Command)
  {
    !(c.SetNumGroups? || c.SetMeasurementItems? || c.SetGroupNumChangedFalse?
      || c.SetMeasurementItemsChangedFalse?)
  }

  /** Every call changes at most the attributes it writes: with the
      contract of Writes, the plain setters one attribute each and never a
      change flag, each clear method its own flag only. */
  lemma FrameOfCommand(s: State, c: Command)
    ensures Changed(s, Apply(s, c)) <= Writes(c)
  {
  }

  /** A plain setter leaves both change flags as they were, and calling it
      twice with the same argument is the same as calling it once. */
  lemma PlainSetterKeepsFlags(s: State, c: Command)
    requires IsPlainSetter(c)
    ensures Apply(s, c).groupNumChanged == s.groupNumChanged
    ensures Apply(s, c).measurementItemsChanged == s.measurementItemsChanged
    ensures Apply(Apply(s, c), c) == Apply(s, c)
  {
  }

  // ---------------------------------------------------------------------
  // The two tracked setters
  // ---------------------------------------------------------------------

  /** Setting the group count to the value it already has changes nothing,
      the change flag included; a different value is stored and raises the
      flag, and nothing else moves. */
  lemma SetNumGroupsEffect(s: State, n: string)
    ensures s.numGroups == n ==> Apply(s, SetNumGroups(n)) == s
    ensures s.numGroups != n ==>
              && Apply(s, SetNumGroups(n)).numGroups == n
              && Apply(s, SetNumGroups(n)).groupNumChanged
              && Changed(s, Apply(s, SetNumGroups(n))) <= {NumGroupsF, GroupNumChangedF}
  {
  }

  /** The same law for the measurement items, compared element by element. */
  lemma SetMeasurementItemsEffect(s: State, v: seq<string>)
    ensures s.items == v ==> Apply(s, SetMeasurementItems(v)) == s
    ensures s.items != v ==>
              && Apply(s, SetMeasurementItems(v)).items == v
              && Apply(s, SetMeasurementItems(v)).measurementItemsChanged
              && Changed(s, Apply(s, SetMeasurementItems(v))) <= {ItemsF, MeasurementItemsChangedF}
  {
  }

  // ---------------------------------------------------------------------
  // Series of calls
  // ---------------------------------------------------------------------

  lemma {:induction false} RunAppend(s: State, a: seq<Command>, b: seq<Command>)
    ensures Run(s, a + b) == Run(Run(s, a), b)
    decreases |a|
  {
    if a != [] {
      assert (a + b)[1..] == a[1..] + b;
      RunAppend(Apply(s, a[0]), a[1..], b);
    } else {
      assert a + b == b;
    }
  }

  /** Some call in the series stored a group count different from the one
      held just before it. */
  predicate NumGroupsEverChanged(s: State, cmds: seq<Command>)
    decreases |cmds|
  {
    cmds != []
    && ((cmds[0].SetNumGroups? && cmds[0].num != s.numGroups)
        || NumGroupsEverChanged(Apply(s, cmds[0]), cmds[1..]))
  }

  /** Some call in the series stored measurement items different from the
      ones held just before it. */
  predicate ItemsEverChanged(s: State, cmds: seq<Command>)
    decreases |cmds|
  {
    cmds != []
    && ((cmds[0].SetMeasurementItems? && cmds[0].items != s.items)
        || ItemsEverChanged(Apply(s, cmds[0]), cmds[1..]))
  }

  /** Between two clears, the group flag is raised exactly when it was
      raised already or some call stored a different group count. */
  lemma {:induction false} GroupFlagTracksChanges(s: State, cmds: seq<Command>)
    requires SetGroupNumChangedFalse !in cmds
    ensures Run(s, cmds).groupNumChanged <==> s.groupNumChanged || NumGroupsEverChanged(s, cmds)
    decreases |cmds|
  {
    if cmds != [] {
      assert cmds == [cmds[0]] + cmds[1..];
      GroupFlagTracksChanges(Apply(s, cmds[0]), cmds[1..]);
    }
  }

  /** Between two clears, the items flag is raised exactly when it was
      raised already or some call stored different items. */
  lemma {:induction false} ItemsFlagTracksChanges(s: State, cmds: seq<Command>)
    requires SetMeasurementItemsChangedFalse !in cmds
    ensures Run(s, cmds).measurementItemsChanged <==> s.measurementItemsChanged || ItemsEverChanged(s, cmds)
    decreases |cmds|
  {
    if cmds != [] {
      assert cmds == [cmds[0]] + cmds[1..];
      ItemsFlagTracksChanges(Apply(s, cmds[0]), cmds[1..]);
    }
  }

  /** Once raised, the group flag stays raised through any calls until
      SetGroupNumChangedFalse runs. */
  lemma GroupFlagSticky(s: State, cmds: seq<Command>)
    requires s.groupNumChanged && SetGroupNumChangedFalse !in cmds
    ensures Run(s, cmds).groupNumChanged
  {
    GroupFlagTracksChanges(s, cmds);
  }

  /** Once raised, the items flag stays raised through any calls until
      SetMeasurementItemsChangedFalse runs. */
  lemma ItemsFlagSticky(s: State, cmds: seq<Command>)
    requires s.measurementItemsChanged && SetMeasurementItemsChangedFalse !in cmds
    ensures Run(s, cmds).measurementItemsChanged
  {
    ItemsFlagTracksChanges(s, cmds);
  }

  /** If no call stored a different group count, the group count is what it was. */
  lemma {:induction false} NumGroupsKeptWithoutChange(s: State, cmds: seq<Command>)
    requires !NumGroupsEverChanged(s, cmds)
    ensures Run(s, cmds).numGroups == s.numGroups
    decreases |cmds|
  {
    if cmds != [] {
      NumGroupsKeptWithoutChange(Apply(s, cmds[0]), cmds[1..]);
    }
  }

  /** If no call stored different items, the items are what they were. */
  lemma {:induction false} ItemsKeptWithoutChange(s: State, cmds: seq<Command>)
    requires !ItemsEverChanged(s, cmds)
    ensures Run(s, cmds).items == s.items
    decreases |cmds|
  {
    if cmds != [] {
      ItemsKeptWithoutChange(Apply(s, cmds[0]), cmds[1..]);
    }
  }

  /** A lowered group flag means the group count is the one it had when the
      flag was last cleared. */
  lemma GroupFlagLoweredMeansUnchanged(s: State, before: seq<Command>, after: seq<Command>)
    requires SetGroupNumChangedFalse !in after
    requires !Run(s, before + [SetGroupNumChangedFalse] + after).groupNumChanged
    ensures Run(s, before + [SetGroupNumChangedFalse] + after).numGroups == Run(s, before).numGroups
  {
    var cleared := Apply(Run(s, before), SetGroupNumChangedFalse);
    RunAppend(s, before, [SetGroupNumChangedFalse]);
    RunAppend(s, before + [SetGroupNumChangedFalse], after);
    GroupFlagTracksChanges(cleared, after);
    NumGroupsKeptWithoutChange(cleared, after);
  }

  /** A lowered items flag means the items are the ones held when the flag
      was last cleared. */
  lemma ItemsFlagLoweredMeansUnchanged(s: State, before: seq<Command>, after: seq<Command>)
    requires SetMeasurementItemsChangedFalse !in after
    requires !Run(s, before + [SetMeasurementItemsChangedFalse] + after).measurementItemsChanged
    ensures Run(s, before + [SetMeasurementItemsChangedFalse] + after).items == Run(s, before).items
  {
    var cleared := Apply(Run(s, before), SetMeasurementItemsChangedFalse);
    RunAppend(s, before, [SetMeasurementItemsChangedFalse]);
    RunAppend(s, before + [SetMeasurementItemsChangedFalse], after);
    ItemsFlagTracksChanges(cleared, after);
    ItemsKeptWithoutChange(cleared, after);
  }

  // ---------------------------------------------------------------------
  // Saving
  // ---------------------------------------------------------------------

  /** Python truthiness of the stored password: None and "" are false. */
  predicate PasswordSet(p: Option<string>)
  {
    p.Some? && p.value != ""
  }

  predicate EndsWith(s: string, suffix: string)
  {
    |suffix| <= |s| && s[|s| - |suffix|..] == suffix
  }

  /** The file a save writes: `<directory>/<name>.pmouser` when a password is
      set, `<directory>/<name>.mouser` otherwise. */
  function SavePath(directory: string, name: string, password: Option<string>): (path: string)
    ensures |path| == |directory| + 1 + |name| + (if PasswordSet(password) then 8 else 7)
    ensures path[..|directory| + 1] == directory + "/"
    ensures path[|directory| + 1..|directory| + 1 + |name|] == name
    ensures EndsWith(path, ".pmouser") <==> PasswordSet(password)
    ensures EndsWith(path, ".mouser") <==> !PasswordSet(password)
  {
    var path := directory + "/" + name + (if PasswordSet(password) then ".pmouser" else ".mouser");
    assert PasswordSet(password) ==>
             path[|path| - 8..] == ".pmouser" && path[|path| - 7..] == "pmouser";
    assert !PasswordSet(password) ==>
             path[|path| - 7..] == ".mouser" && (|path| >= 8 ==> path[|path| - 8..][1..] == ".mouser");
    path
  }

  /** Within one directory the file names the experiment: two saves write the
      same file only for the same name and the same choice of encryption. */
  lemma SavePathDeterminesName(directory: string, n1: string, p1: Option<string>,
                               n2: string, p2: Option<string>)
    requires SavePath(directory, n1, p1) == SavePath(directory, n2, p2)
    ensures PasswordSet(p1) == PasswordSet(p2)
    ensures n1 == n2
  {
    var path := SavePath(directory, n1, p1);
    var ext := if PasswordSet(p1) then ".pmouser" else ".mouser";
    assert path == directory + "/" + n1 + ext;
    assert path == directory + "/" + n2 + ext;
    assert |n1| == |n2|;
  }

  /** One request a save makes of the database or the encryption collaborator. */
  datatype Action =
    | OpenDatabase(file: string)
    | SetupExperiment(name: string, species: string, rfid: bool, numAnimals: string,
                      numGroups: string, maxPerCage: string, id: string)
    | SetupGroups(groupNames: seq<string>)
    | SetupCages(numAnimals: string, numGroups: string, maxPerCage: string)
    | SetupMeasurementItems(collectionTypes: seq<string>)
    | SetupCollectedData(items: seq<string>)
    | EncryptFile(password: string, file: string)
}
