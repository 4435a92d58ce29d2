/**
 * The outcome of installing one library: the state that was installed, whether
 * the installation was cancelled, and the errors it ran into, in order.
 * Success is not stored; it is read off the other two.
 */
module LibraryResult {
  import opened LibraryErrors
  import opened LibraryState

  class LibraryInstallationResult {
    var cancelled: bool
    var errors: seq<Error>
    /** The very state object the provider was asked to install (null allowed). */
    var installationState: LibraryInstallationState?

    /** True when the installation was not cancelled and reported no error. */
    predicate Success()
      reads this
    {
      !cancelled && |errors| == 0
    }

    /** A result with no errors, not cancelled, for the given state. */
    constructor (installationState: LibraryInstallationState?)
      ensures this.installationState == installationState
      ensures errors == [] && !cancelled
      ensures Success()
    {
      errors := [];
      this.installationState := installationState;
      cancelled := false;
    }

    /**
     * A result whose error list is a copy of `error`, in the same order, not
     * cancelled; it is a success only when `error` is empty.
     */
    constructor WithErrors(installationState: LibraryInstallationState?, error: array<Error>)
      ensures this.installationState == installationState
      ensures errors == error[..] && |errors| == error.Length
      ensures !cancelled
      ensures Success() <==> error.Length == 0
    {
      errors := error[..];
      this.installationState := installationState;
      cancelled := false;
    }

    /** The result of an installation that went through. */
    static method FromSuccess(installationState: LibraryInstallationState?) returns (r: LibraryInstallationResult)
      ensures fresh(r)
      ensures r.installationState == installationState
      ensures installationState != null ==> unchanged(installationState)
      ensures r.errors == [] && !r.cancelled
      ensures r.Success()
    {
      r := new LibraryInstallationResult(installationState);
    }

    /** The result of an installation that was cancelled before it reported any error. */
    static method FromCancelled(installationState: LibraryInstallationState?) returns (r: LibraryInstallationResult)
      ensures fresh(r)
      ensures r.installationState == installationState
      ensures installationState != null ==> unchanged(installationState)
      ensures r.errors == [] && r.cancelled
      ensures !r.Success()
    {
      r := new LibraryInstallationResult(installationState);
      r.SetCancelled(true);
    }

    /** The `Cancelled` setter; a cancelled result is never a success. */
    method SetCancelled(value: bool)
      modifies this`cancelled
      ensures cancelled == value
      ensures errors == old(errors) && installationState == old(installationState)
      ensures Success() <==> !value && errors == []
    {
      cancelled := value;
    }

    /** The `Errors` setter: the list is replaced whole. */
    method SetErrors(value: seq<Error>)
      modifies this`errors
      ensures errors == value
      ensures cancelled == old(cancelled) && installationState == old(installationState)
      ensures Success() <==> !cancelled && value == []
    {
      errors := value;
    }

    /** Appending to the `Errors` list; a result with any error is never a success. */
    method AddError(e: Error)
      modifies this`errors
      ensures errors == old(errors) + [e]
      ensures cancelled == old(cancelled) && installationState == old(installationState)
      ensures !Success()
    {
      errors := errors + [e];
    }

    /** The `InstallationState` setter. */
    method SetInstallationState(value: LibraryInstallationState?)
      modifies this`installationState
      ensures installationState == value
      ensures cancelled == old(cancelled) && errors == old(errors)
      ensures Success() == old(Success())
    {
      installationState := value;
    }
  }
}
