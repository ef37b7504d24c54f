/** The onboarding-completed flag: a hook with two pieces of state backed by
    the device's key-value storage under one key. Every storage call may fail;
    the `fails` parameter of each operation says whether the storage call
    rejected, and the hook catches that failure itself. */
module OnboardingStatus {
  import opened Wrappers

  /** The storage key of the flag, and the value that means "completed". */
  const OnboardingKey: string := "onboarding_completed"
  const CompletedValue: string := "true"

  /** The device's asynchronous key-value storage, shared by every hook instance. */
  class AsyncStore {
    var items: map<string, string>

    constructor (initial: map<string, string>)
      ensures items == initial
    {
      items := initial;
    }
  }

  /** What a read of `key` yields: the stored string, or `null` when the key is absent. */
  function GetItem(items: map<string, string>, key: string): (r: Option<string>)
    ensures r.Some? <==> key in items
    ensures r.Some? ==> r.value == items[key]
  {
    if key in items then Some(items[key]) else None
  }

  /** The flag a check derives from storage: completed exactly when the read
      succeeded and found the string "true"; a failed read counts as not completed. */
  predicate CheckedFlag(items: map<string, string>, readFails: bool) {
    !readFails && GetItem(items, OnboardingKey) == Some(CompletedValue)
  }

  /** Storing "true" under the key is what a later check reads back as completed,
      and no other key is touched. */
  lemma SetThenCheck(items: map<string, string>)
    ensures CheckedFlag(items[OnboardingKey := CompletedValue], false)
    ensures forall k :: k in items && k != OnboardingKey ==>
              GetItem(items[OnboardingKey := CompletedValue], k) == Some(items[k])
  {
  }

  /** After the key is removed, no check reads the flag as completed, and no other
      key is touched. */
  lemma RemoveThenCheck(items: map<string, string>, readFails: bool)
    ensures !CheckedFlag(items - {OnboardingKey}, readFails)
    ensures forall k :: k in items && k != OnboardingKey ==>
              GetItem(items - {OnboardingKey}, k) == Some(items[k])
  {
  }

  /** One instance of the onboarding-status hook. */
  class OnboardingStatusHook {
    /** `null` until the first check has finished. */
    var isOnboardingCompleted: Option<bool>
    var isLoading: bool
    const storage: AsyncStore

    /** The hook's initial state: flag unknown, loading. */
    constructor (storage: AsyncStore)
      ensures this.storage == storage
      ensures isOnboardingCompleted == None && isLoading
    {
      this.storage := storage;
      isOnboardingCompleted := None;
      isLoading := true;
    }

    /** Reads the flag from storage; run once when the hook mounts. Whether the read
        succeeds or fails, loading ends. */
    method CheckOnboardingStatus(readFails: bool)
      modifies this
      ensures isOnboardingCompleted == Some(CheckedFlag(storage.items, readFails))
      ensures readFails ==> isOnboardingCompleted == Some(false)
      ensures !isLoading
    {
      if readFails {
        isOnboardingCompleted := Some(false);
      } else {
        var status := GetItem(storage.items, OnboardingKey);
        isOnboardingCompleted := Some(status == Some(CompletedValue));
      }
      isLoading := false;
    }

    /** Stores "true" under the key and marks onboarding completed; when the
        write fails nothing changes. */
    method CompleteOnboarding(writeFails: bool)
      modifies this, storage
      ensures writeFails ==>
                storage.items == old(storage.items) &&
                isOnboardingCompleted == old(isOnboardingCompleted)
      ensures !writeFails ==>
                storage.items == old(storage.items)[OnboardingKey := CompletedValue] &&
                isOnboardingCompleted == Some(true)
      ensures isLoading == old(isLoading)
    {
      if !writeFails {
        storage.items := storage.items[OnboardingKey := CompletedValue];
        isOnboardingCompleted := Some(true);
      }
    }

    /** Removes the key and marks onboarding not completed; when the removal
        fails nothing changes. */
    method ResetOnboarding(removeFails: bool)
      modifies this, storage
      ensures removeFails ==>
                storage.items == old(storage.items) &&
                isOnboardingCompleted == old(isOnboardingCompleted)
      ensures !removeFails ==>
                storage.items == old(storage.items) - {OnboardingKey} &&
                isOnboardingCompleted == Some(false)
      ensures isLoading == old(isLoading)
    {
      if !removeFails {
        storage.items := storage.items - {OnboardingKey};
        isOnboardingCompleted := Some(false);
      }
    }
  }

  /** Round trip through storage: after one hook instance completes onboarding
      successfully, a hook mounted later on the same storage reads "completed"
      (unless its own read fails); after a successful reset it reads "not completed". */
  method CompleteThenRemount(h: OnboardingStatusHook, resetAfterwards: bool, readFails: bool)
    returns (seen: Option<bool>)
    modifies h, h.storage
    ensures seen == Some(!resetAfterwards && !readFails)
  {
    h.CompleteOnboarding(false);
    if resetAfterwards {
      h.ResetOnboarding(false);
      RemoveThenCheck(old(h.storage.items)[OnboardingKey := CompletedValue], readFails);
    } else {
      SetThenCheck(old(h.storage.items));
    }
    var later := new OnboardingStatusHook(h.storage);
    later.CheckOnboardingStatus(readFails);
    seen := later.isOnboardingCompleted;
  }
}
