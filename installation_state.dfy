/**
 * The desired state of one library: which library, from which provider, which
 * of its files, and where to put them. The record is a class of four settable
 * properties; callers fill it with object initialisers, one property at a time.
 */
module LibraryState {
  import opened Wrappers

  /** The four properties of a state. */
  datatype Field = LibraryIdField | ProviderIdField | FilesField | DestinationPathField

  /** The values of the four properties at one moment; `None` is null. */
  datatype StateValue = StateValue(
    libraryId: Option<string>,
    providerId: Option<string>,
    files: Option<seq<string>>,
    destinationPath: Option<string>)

  /** A newly constructed state: no property has been assigned. */
  const Unset := StateValue(None, None, None, None)

  /** One property assignment. The file list is a value, so it can only be replaced whole. */
  datatype Assignment =
    | AssignLibraryId(libraryId: Option<string>)
    | AssignProviderId(providerId: Option<string>)
    | AssignFiles(files: Option<seq<string>>)
    | AssignDestinationPath(destinationPath: Option<string>)
  {
    /** The property this assignment writes. */
    function Target(): Field
    {
      match this
      case AssignLibraryId(_) => LibraryIdField
      case AssignProviderId(_) => ProviderIdField
      case AssignFiles(_) => FilesField
      case AssignDestinationPath(_) => DestinationPathField
    }
  }

  /** The effect of one assignment: its property takes the new value and the other three keep theirs. */
  function Assign(v: StateValue, a: Assignment): (w: StateValue)
    ensures a.AssignLibraryId? ==> w.libraryId == a.libraryId
    ensures a.AssignProviderId? ==> w.providerId == a.providerId
    ensures a.AssignFiles? ==> w.files == a.files
    ensures a.AssignDestinationPath? ==> w.destinationPath == a.destinationPath
    ensures a.Target() != LibraryIdField ==> w.libraryId == v.libraryId
    ensures a.Target() != ProviderIdField ==> w.providerId == v.providerId
    ensures a.Target() != FilesField ==> w.files == v.files
    ensures a.Target() != DestinationPathField ==> w.destinationPath == v.destinationPath
  {
    match a
    case AssignLibraryId(x) => v.(libraryId := x)
    case AssignProviderId(x) => v.(providerId := x)
    case AssignFiles(x) => v.(files := x)
    case AssignDestinationPath(x) => v.(destinationPath := x)
  }

  /** The effect of a run of assignments made in order, as an object initialiser makes them. */
  function AssignAll(v: StateValue, steps: seq<Assignment>): StateValue
    decreases |steps|
  {
    if steps == [] then v else AssignAll(Assign(v, steps[0]), steps[1..])
  }

  /** The position of the last assignment to `f` in `steps`, or -1 when there is none. */
  function LastAssignment(steps: seq<Assignment>, f: Field): (i: int)
    ensures -1 <= i < |steps|
    ensures 0 <= i ==> steps[i].Target() == f
    ensures forall j :: i < j < |steps| ==> steps[j].Target() != f
  {
    if steps == [] then -1
    else
      var k := LastAssignment(steps[1..], f);
      assert forall j :: k + 1 < j < |steps| ==> steps[j] == steps[1..][j - 1];
      if 0 <= k then k + 1
      else if steps[0].Target() == f then 0
      else -1
  }

  /**
   * After a run of assignments each property holds the value most recently
   * assigned to it, or the value it started with when it was never assigned.
   */
  lemma {:induction false} ReadsBackMostRecent(v: StateValue, steps: seq<Assignment>)
    ensures var i := LastAssignment(steps, LibraryIdField);
      AssignAll(v, steps).libraryId == if i < 0 then v.libraryId else steps[i].libraryId
    ensures var i := LastAssignment(steps, ProviderIdField);
      AssignAll(v, steps).providerId == if i < 0 then v.providerId else steps[i].providerId
    ensures var i := LastAssignment(steps, FilesField);
      AssignAll(v, steps).files == if i < 0 then v.files else steps[i].files
    ensures var i := LastAssignment(steps, DestinationPathField);
      AssignAll(v, steps).destinationPath == if i < 0 then v.destinationPath else steps[i].destinationPath
    decreases |steps|
  {
    if steps != [] {
      ReadsBackMostRecent(Assign(v, steps[0]), steps[1..]);
    }
  }

  /**
   * The file list can only be replaced whole: after any run of assignments it
   * is the list the state started with or one list that was assigned as a whole.
   */
  lemma FilesReplacedWholesale(v: StateValue, steps: seq<Assignment>)
    ensures var w := AssignAll(v, steps);
      w.files == v.files || exists i :: 0 <= i < |steps| && steps[i] == AssignFiles(w.files)
  {
    ReadsBackMostRecent(v, steps);
    var i := LastAssignment(steps, FilesField);
    if 0 <= i {
      assert steps[i] == AssignFiles(AssignAll(v, steps).files);
    }
  }

  /** The desired state of one library, as a record of four settable properties. */
  class LibraryInstallationState {
    var libraryId: Option<string>
    var providerId: Option<string>
    var files: Option<seq<string>>
    var destinationPath: Option<string>

    /** The current values of the four properties. */
    function Value(): StateValue
      reads this
    {
      StateValue(libraryId, providerId, files, destinationPath)
    }

    /** A new state has all four properties null. */
    constructor ()
      ensures Value() == Unset
    {
      libraryId, providerId, files, destinationPath := None, None, None, None;
    }

    method SetLibraryId(value: Option<string>)
      modifies this`libraryId
      ensures libraryId == value
      ensures Value() == Assign(old(Value()), AssignLibraryId(value))
    {
      libraryId := value;
    }

    method SetProviderId(value: Option<string>)
      modifies this`providerId
      ensures providerId == value
      ensures Value() == Assign(old(Value()), AssignProviderId(value))
    {
      providerId := value;
    }

    method SetFiles(value: Option<seq<string>>)
      modifies this`files
      ensures files == value
      ensures Value() == Assign(old(Value()), AssignFiles(value))
    {
      files := value;
    }

    method SetDestinationPath(value: Option<string>)
      modifies this`destinationPath
      ensures destinationPath == value
      ensures Value() == Assign(old(Value()), AssignDestinationPath(value))
    {
      destinationPath := value;
    }

    /** Performs one assignment through the matching setter. */
    method Apply(a: Assignment)
      modifies this
      ensures Value() == Assign(old(Value()), a)
    {
      match a
      case AssignLibraryId(x) => SetLibraryId(x);
      case AssignProviderId(x) => SetProviderId(x);
      case AssignFiles(x) => SetFiles(x);
      case AssignDestinationPath(x) => SetDestinationPath(x);
    }

    /** An object initialiser: a new state followed by the given assignments, in order. */
    static method FromInitializer(steps: seq<Assignment>) returns (s: LibraryInstallationState)
      ensures fresh(s)
      ensures s.Value() == AssignAll(Unset, steps)
    {
      s := new LibraryInstallationState();
      var i := 0;
      while i < |steps|
        invariant 0 <= i <= |steps|
        invariant AssignAll(s.Value(), steps[i..]) == AssignAll(Unset, steps)
      {
        assert steps[i..][0] == steps[i] && steps[i..][1..] == steps[i + 1..];
        s.Apply(steps[i]);
        i := i + 1;
      }
    }
  }
}
