/**
  The `GroupSettings` collection as a map from group id to its `antiLink` flag: at most
  one record per group by construction. `GetOrCreate` is the find-then-save of the
  moderation handler, `SetAntiLink` the upserting update of the command handler.
*/
module PolicyStore {

  type Store = map<string, bool>

  /** The schema default of `antiLink`. */
  const DefaultAntiLink: bool := true

  /** The policy a group has, reading an absent record as the default. */
  function PolicyOf(store: Store, groupId: string): bool {
    if groupId in store then store[groupId] else DefaultAntiLink
  }

  datatype Lookup = Lookup(store: Store, antiLink: bool)

  /** `findOne`, and on a miss `new GroupSettings({ groupId }).save()`. */
  function GetOrCreate(store: Store, groupId: string): (r: Lookup)
    ensures groupId in r.store && r.antiLink == r.store[groupId] == PolicyOf(store, groupId)
    ensures r.store.Keys == store.Keys + {groupId}
    ensures forall g | g in store :: r.store[g] == store[g]
  {
    if groupId in store then Lookup(store, store[groupId])
    else Lookup(store[groupId := DefaultAntiLink], DefaultAntiLink)
  }

  /** `findOneAndUpdate({ groupId }, { $set: { antiLink: value } }, { upsert: true })`. */
  function SetAntiLink(store: Store, groupId: string, value: bool): (r: Store)
    ensures r.Keys == store.Keys + {groupId}
    ensures r[groupId] == value
    ensures forall g | g in store && g != groupId :: r[g] == store[g]
  {
    store[groupId := value]
  }

  /** A second lookup finds the record the first one created and changes nothing. */
  lemma GetOrCreateStable(store: Store, groupId: string)
    ensures var first := GetOrCreate(store, groupId);
            GetOrCreate(first.store, groupId) == first
  {
  }

  /** Setting the same value twice is the same as setting it once. */
  lemma SetAntiLinkIdempotent(store: Store, groupId: string, value: bool)
    ensures SetAntiLink(SetAntiLink(store, groupId, value), groupId, value) == SetAntiLink(store, groupId, value)
  {
  }

  /** A lookup after an update reads the value set, and creates nothing. */
  lemma GetAfterSet(store: Store, groupId: string, value: bool)
    ensures var s := SetAntiLink(store, groupId, value);
            GetOrCreate(s, groupId) == Lookup(s, value)
  {
  }

  /** An update after a lookup leaves the same store as the update alone. */
  lemma SetAfterGet(store: Store, groupId: string, value: bool)
    ensures SetAntiLink(GetOrCreate(store, groupId).store, groupId, value) == SetAntiLink(store, groupId, value)
  {
  }
}
