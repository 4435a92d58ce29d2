# LibraryInstaller: per-library installation results

This project models the outcome record of the LibraryInstaller. When a provider installs one library it returns a
`LibraryInstallationResult`. The result holds the `LibraryInstallationState` it was asked to install, a
`Cancelled` flag and an ordered list of errors. `Success` is derived from those and never stored. The model
also covers the state record itself: four settable properties (`LibraryId`, `ProviderId`, `Files`,
`DestinationPath`), filled in by object initialisers.

Modules:

- `Wrappers` (wrappers.dfy): `Option`. `None` stands for a C# null reference.
- `LibraryErrors` (errors.dfy): the `Error` entry, a stable code (such as `LIB002`) and a message.
- `LibraryState` (installation_state.dfy): the state class, whose setters change one field each. It also
  has a pure value of the four fields (`StateValue`) and a model of a run of property assignments
  (`Assignment`, `AssignAll`). An object initialiser such as `new LibraryInstallationState { ProviderId = …,
  LibraryId = … }` is a new object followed by such a run, in order.
- `LibraryResult` (installation_result.dfy): the result class, its two constructors, the `FromSuccess` and
  `FromCancelled` factories, the setters, appending to the error list, and `Success`.

`Success` is `!Cancelled && Errors.Count == 0` over the class's fields. The methods' postconditions state what
every call does to it.

## Model

| member | source | states |
|---|---|---|
| LibraryState.Assign | src/LibraryInstaller.Vsix/Contracts/LibraryInstallationState.cs:11-14 | assigning a property gives it the new value and leaves the other three unchanged |
| LibraryState.LastAssignment | src/LibraryInstaller.Vsix/Contracts/LibraryInstallationState.cs:11-14 | finds the last assignment to a property in a run: it targets that property and nothing after it does, or there is none (-1) |
| LibraryState.ReadsBackMostRecent | src/LibraryInstaller.Vsix/Contracts/LibraryInstallationState.cs:11-14 | after any run of assignments, each property holds the value most recently assigned to it, or its starting value if it was never assigned |
| LibraryState.FilesReplacedWholesale | src/LibraryInstaller.Vsix/Contracts/LibraryInstallationState.cs:13 | the file list is read-only, so after any run of assignments it is the starting list or one list that was assigned as a whole |
| LibraryState.LibraryInstallationState.constructor | src/LibraryInstaller.Vsix/Contracts/LibraryInstallationState.cs:9-15 | a new state has all four properties null |
| LibraryState.LibraryInstallationState.SetLibraryId | src/LibraryInstaller.Vsix/Contracts/LibraryInstallationState.cs:11 | `LibraryId` reads back the assigned value; the frame and `Assign` keep the other three properties |
| LibraryState.LibraryInstallationState.SetProviderId | src/LibraryInstaller.Vsix/Contracts/LibraryInstallationState.cs:12 | `ProviderId` reads back the assigned value; the other three properties are unchanged |
| LibraryState.LibraryInstallationState.SetFiles | src/LibraryInstaller.Vsix/Contracts/LibraryInstallationState.cs:13 | `Files` is replaced by the assigned list; the other three properties are unchanged |
| LibraryState.LibraryInstallationState.SetDestinationPath | src/LibraryInstaller.Vsix/Contracts/LibraryInstallationState.cs:14 | `DestinationPath` reads back the assigned value; the other three properties are unchanged |
| LibraryState.LibraryInstallationState.Apply | src/LibraryInstaller.Vsix/Contracts/LibraryInstallationState.cs:11-14 | one property assignment through its setter changes the record exactly as `Assign` says |
| LibraryState.LibraryInstallationState.FromInitializer | src/LibraryInstaller.Vsix/Contracts/LibraryInstallationState.cs:9-15 | an object initialiser of this class yields a new state whose fields are the result of its assignments applied in order to an unset state |
| LibraryResult.LibraryInstallationResult.constructor | src/LibraryInstaller/LibraryInstallationResult.cs:14-18 | a new result keeps the given state by reference, has no errors, is not cancelled, and is a success |
| LibraryResult.LibraryInstallationResult.WithErrors | src/LibraryInstaller/LibraryInstallationResult.cs:21-27 | the error list is a copy of the given array, in order and of the same length; the result is not cancelled, keeps the state by reference, and is a success exactly when the array is empty |
| LibraryResult.LibraryInstallationResult.FromSuccess | src/LibraryInstaller/LibraryInstallationResult.cs:57-60 | a fresh result holding the very state passed in, left untouched, with no errors, not cancelled, and a success |
| LibraryResult.LibraryInstallationResult.FromCancelled | src/LibraryInstaller/LibraryInstallationResult.cs:63-69 | a fresh result holding the very state passed in, left untouched, cancelled, with no errors, and not a success |
| LibraryResult.LibraryInstallationResult.SetCancelled | src/LibraryInstaller/LibraryInstallationResult.cs:32 | sets the flag and changes nothing else; afterwards it is a success exactly when the flag is false and there are no errors, so cancelling forces failure whatever the errors |
| LibraryResult.LibraryInstallationResult.SetErrors | src/LibraryInstaller/LibraryInstallationResult.cs:48 | replaces the error list and changes nothing else; afterwards it is a success exactly when not cancelled and the new list is empty |
| LibraryResult.LibraryInstallationResult.AddError | src/LibraryInstaller/LibraryInstallationResult.cs:42-48 | appends the error at the end of the list, changes nothing else, and makes the result not a success |
| LibraryResult.LibraryInstallationResult.Success | src/LibraryInstaller/LibraryInstallationResult.cs:40-43 | true exactly when the result is not cancelled and its error list is empty, the getter's expression; each constructor, factory and setter in this table states what it makes of it |
| LibraryResult.LibraryInstallationResult.SetInstallationState | src/LibraryInstaller/LibraryInstallationResult.cs:54 | replaces the state reference and changes neither the flag, nor the errors, nor `Success` |

## Left out

- The type of `InstallationState` is the `ILibraryInstallationState` interface, which is not part of this model. The model uses the `LibraryInstallationState` class from the Vsix contracts as the implementation. It still allows null, and "the same state" means reference equality.
- The provider tests build their states with a same-named `LibraryInstallationState` class from another namespace, whose source is not part of this model. The model assumes it has the same four auto-properties; its reference-identity checks are read as holding of any state object passed in.
- `IError` is not part of this model either. `Error` is a code and a message. No table of codes is modelled.
- The error list is always a growable `List`. A fixed-size or read-only `IList` assigned through the `Errors` setter is not modelled; on such a list `Add` throws, while `AddError` here always appends.
- Null entries in the error list are not modelled. In the source, passing a null error to the `params` constructor stores one null entry.
- Setting `Errors` to null is not modelled. The model's list is never null. In the source, `Success` would then throw a null-reference exception.
- Passing a null array to the `params` constructor is not modelled. In the source, `AddRange` would throw.
- Aliasing of lists is not modelled: two results sharing one `List`, or a caller changing the array it passed as `Files`. Lists are values here, so neither case can arise.
- The asynchronous cancellation helper is left out: it races tasks.
- The themed UI resources are left out: they are presentation.
- The CDN provider factory is left out: it only checks for null and calls a provider that is not part of this model.
- The provider, manifest and registry behaviour the tests exercise is left out. This covers validation order, file copying, JSON restore and save, and the network. That code is not part of this model.
