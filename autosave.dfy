/**
  Model of `useAutosave(key)` in lib/hooks.ts: drafts kept under one key of the
  browser's `localStorage`.

  `localStorage` is a map from keys to stored strings. A string the hook wrote is
  `Serialized(d)`, where `d` is what `JSON.parse` gives back for it; a string some other
  writer left there is `Text(raw, parsed)`, where `parsed` is `None` when `JSON.parse`
  throws or yields no draft object. Whether `window` exists and whether a storage call
  throws (quota, privacy mode) are inputs, as is the ISO time stamp.
 */
module Autosave {
  import opened Wrappers
  import opened Metadata

  datatype Stored = Serialized(draft: VideoMetadata) | Text(raw: string, parsed: Option<VideoMetadata>)

  type Storage = map<string, Stored>

  /** The environment of one storage call. */
  datatype Env = Env(hasWindow: bool, storageThrows: bool)

  /** A storage call runs to completion: there is a `window` and the call does not throw. */
  predicate Works(env: Env) {
    env.hasWindow && !env.storageThrows
  }

  /**
    `JSON.parse(JSON.stringify({...metadata, savedAt: now}))`: `savedAt` is overwritten
    and the `File` in `customThumbnail` does not come back as a file.
   */
  function Serialize(m: VideoMetadata, now: string): (d: VideoMetadata)
    ensures d.savedAt == Some(now) && d.customThumbnail == None
    ensures forall f :: f != CustomThumbnailField ==> Get(d, f) == Get(m, f)
  {
    m.(savedAt := Some(now), customThumbnail := None)
  }

  /** The storage after `saveDraft(metadata)`, and its boolean result. */
  function Saved(s: Storage, key: string, m: VideoMetadata, now: string, env: Env): (r: (Storage, bool))
    ensures r.1 == Works(env)
  {
    if Works(env) then (s[key := Serialized(Serialize(m, now))], true) else (s, false)
  }

  /** The result of `loadDraft()`: `null` without a window, on a throw, for a missing or empty item, or on a parse failure. */
  function Loaded(s: Storage, key: string, env: Env): Option<VideoMetadata> {
    if !Works(env) || key !in s then None
    else match s[key]
      case Serialized(d) => Some(d)
      case Text(raw, parsed) => if raw == "" then None else parsed
  }

  /** The storage after `clearDraft()`, and its boolean result. */
  function Cleared(s: Storage, key: string, env: Env): (r: (Storage, bool))
    ensures r.1 == Works(env)
  {
    if Works(env) then (s - {key}, true) else (s, false)
  }

  /** The result of `hasDraft()`. */
  function Present(s: Storage, key: string, env: Env): bool {
    Works(env) && key in s
  }

  // ---------------------------------------------------------------- properties

  /**
    A draft that was saved loads back with every key of the metadata except the
    thumbnail file, and with `savedAt` set to the time of the save.
   */
  lemma SaveThenLoad(s: Storage, key: string, m: VideoMetadata, now: string, env: Env)
    requires Works(env)
    ensures var d := Loaded(Saved(s, key, m, now, env).0, key, env);
      && d.Some?
      && d.value.savedAt == Some(now)
      && d.value.customThumbnail == None
      && forall f :: f != CustomThumbnailField ==> Get(d.value, f) == Get(m, f)
  {
  }

  /**
    Saving a draft the hook wrote (it has no thumbnail file), at the time it carries,
    stores the same draft again.
   */
  lemma LoadThenSave(s: Storage, key: string, now: string, env: Env)
    requires Works(env) && key in s && s[key].Serialized?
    requires s[key].draft.savedAt == Some(now) && s[key].draft.customThumbnail == None
    ensures Saved(s, key, Loaded(s, key, env).value, now, env).0 == s
  {
    var d := s[key].draft;
    assert d == Serialize(d, now) by {
      var e := Serialize(d, now);
      GetDetermines(Serialize(d, now), d);
    }
  }

  /** Only the last of two saves is visible. */
  lemma LastSaveWins(s: Storage, key: string, a: VideoMetadata, b: VideoMetadata, t1: string, t2: string, env: Env)
    ensures Saved(Saved(s, key, a, t1, env).0, key, b, t2, env).0 == Saved(s, key, b, t2, env).0
  {
  }

  /** A call that cannot reach storage reports failure and changes nothing. */
  lemma FailedCallsChangeNothing(s: Storage, key: string, m: VideoMetadata, now: string, env: Env)
    requires !Works(env)
    ensures Saved(s, key, m, now, env) == (s, false)
    ensures Cleared(s, key, env) == (s, false)
    ensures Loaded(s, key, env) == None && !Present(s, key, env)
  {
  }

  /** After `clearDraft` nothing is there to load; clearing twice is clearing once. */
  lemma ClearRemovesDraft(s: Storage, key: string, env: Env)
    ensures Works(env) ==> Loaded(Cleared(s, key, env).0, key, env) == None
    ensures Works(env) ==> !Present(Cleared(s, key, env).0, key, env)
    ensures Cleared(Cleared(s, key, env).0, key, env).0 == Cleared(s, key, env).0
  {
  }

  /**
    Every loadable draft is reported by `hasDraft`, and right after a save `hasDraft`
    holds exactly when storage works.
   */
  lemma HasDraftMeansPresent(s: Storage, key: string, m: VideoMetadata, now: string, env: Env)
    ensures Loaded(s, key, env).Some? ==> Present(s, key, env)
    ensures Present(Saved(s, key, m, now, env).0, key, env) <==> Works(env)
  {
  }

  /** The converse fails: an empty or unparsable item counts as a draft but does not load. */
  lemma PresentButNotLoadable(key: string, env: Env)
    requires Works(env)
    ensures Present(map[key := Text("", None)], key, env)
    ensures Loaded(map[key := Text("", None)], key, env) == None
    ensures Present(map[key := Text("{", None)], key, env)
    ensures Loaded(map[key := Text("{", None)], key, env) == None
  {
  }

  /** The hook only ever touches its own key. */
  lemma OtherKeysUntouched(s: Storage, key: string, other: string, m: VideoMetadata, now: string, env: Env)
    requires other != key
    ensures (other in Saved(s, key, m, now, env).0 <==> other in s)
    ensures other in s ==> Saved(s, key, m, now, env).0[other] == s[other]
    ensures (other in Cleared(s, key, env).0 <==> other in s)
    ensures other in s ==> Cleared(s, key, env).0[other] == s[other]
  {
  }

  // ---------------------------------------------------------------- the hook object

  /** `useAutosave(key)` together with the `localStorage` it writes to. */
  class DraftStore {
    const key: string
    var storage: Storage

    constructor (key: string, storage: Storage)
      ensures this.key == key && this.storage == storage
    {
      this.key := key;
      this.storage := storage;
    }

    method SaveDraft(metadata: VideoMetadata, now: string, env: Env) returns (ok: bool)
      modifies this
      ensures (storage, ok) == Saved(old(storage), key, metadata, now, env)
    {
      if !env.hasWindow {
        return false;
      }
      if env.storageThrows {
        ok := false;
      } else {
        storage := storage[key := Serialized(Serialize(metadata, now))];
        ok := true;
      }
    }

    method LoadDraft(env: Env) returns (draft: Option<VideoMetadata>)
      ensures draft == Loaded(storage, key, env)
      ensures draft.Some? ==> Present(storage, key, env)
    {
      if !env.hasWindow || env.storageThrows {
        return None;
      }
      if key !in storage {
        return None;
      }
      match storage[key]
      case Serialized(d) =>
        draft := Some(d);
      case Text(raw, parsed) =>
        draft := if raw == "" then None else parsed;
    }

    method ClearDraft(env: Env) returns (ok: bool)
      modifies this
      ensures (storage, ok) == Cleared(old(storage), key, env)
    {
      if !env.hasWindow {
        return false;
      }
      if env.storageThrows {
        ok := false;
      } else {
        storage := storage - {key};
        ok := true;
      }
    }

    method HasDraft(env: Env) returns (b: bool)
      ensures b == Present(storage, key, env)
    {
      if !env.hasWindow || env.storageThrows {
        return false;
      }
      b := key in storage;
    }
  }
}
