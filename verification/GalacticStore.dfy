/** The replica end: the response handler that store/store.go installs for a galactic store. */
module GalacticStores {
  import opened BusStores
  import opened Options
  import opened Replication

  /** A response after JSON decoding. A field is `None` when it is absent or of the wrong type. */
  datatype Raw = Raw(
    storeId: string,                   // "" when it is not a string
    responseType: Option<string>,
    items: Option<map<Id, Value>>,
    itemId: Option<Id>,
    newItemValue: Option<Value>,
    storeVersion: Option<int>)

  /** How a message of the sync service for the store `name` arrives. */
  function Encode(name: string, m: Message): Raw {
    match m
    case Content(items, version) => Raw(name, Some("storeContentResponse"), Some(items), None, None, Some(version))
    case Update(id, value, version) =>
      Raw(name, Some("updateStoreResponse"), None, Some(id), Some(value), Some(version))
  }

  /** The items of a content response that convert to the store's item type. */
  function Convertible(convert: Value -> Option<Value>, items: map<Id, Value>): (r: map<Id, Value>)
    ensures forall k :: Lookup(r, k) == if k in items then convert(items[k]) else None
  {
    map k | k in items && convert(items[k]).Some? :: convert(items[k]).value
  }

  class GalacticStore {
    const name: string
    const convert: Value -> Option<Value>
    var items: map<Id, Value>
    var storeVersion: int
    var ready: bool

    constructor (name: string, convert: Value -> Option<Value>)
      ensures this.name == name && this.convert == convert && Holds() == FRESH && !ready
    {
      this.name, this.convert := name, convert;
      items, storeVersion, ready := map[], 1, false;
    }

    function Holds(): Image
      reads this
    {
      Image(items, storeVersion)
    }

    method UpdateVersionFromResponse(version: Option<int>)
      modifies this`storeVersion
      ensures storeVersion == if version.Some? then version.value else 1
    {
      match version
      case Some(v) => storeVersion := v;
      case None => storeVersion := 1;
    }

    method LoadItems(content: map<Id, Value>)
      modifies this`items
      ensures items == Convertible(convert, content)
    {
      items := map[];
      var left := content.Keys;
      while left != {}
        invariant left <= content.Keys
        invariant items == Convertible(convert, content - left)
      {
        var key :| key in left;
        ghost var seen := content - left;
        var converted := convert(content[key]);
        if converted.Some? {
          items := items[key := converted.value];
        }
        left := left - {key};
        assert content - left == seen[key := content[key]];
      }
      assert content - left == content;
    }

    /** Applies one response.  A message of the sync service has the effect that the replication theorem assumes,
        when values convert to themselves; a response that is not for this store, or is malformed, has none; and an
        update whose value does not convert moves the version but not the item. */
    method HandleResponse(response: Option<Raw>) returns (changed: Option<Id>)
      modifies this
      ensures forall m :: response == Some(Encode(name, m)) && (forall v :: convert(v) == Some(v))
                ==> Holds() == Receive(old(Holds()), m) && (m.Content? ==> ready)
      ensures (response == None || response.value.storeId != name
               || response.value.responseType !in {Some("storeContentResponse"), Some("updateStoreResponse")})
                ==> Holds() == old(Holds()) && ready == old(ready)
      ensures response.Some? && response.value.storeId == name
              && response.value.responseType == Some("storeContentResponse") ==>
                var r := response.value;
                if r.items.None? then Holds() == old(Holds()) && ready == old(ready)
                else items == Convertible(convert, r.items.value) && ready
                     && storeVersion == if r.storeVersion.Some? then r.storeVersion.value else 1
      ensures response.Some? && response.value.storeId == name
              && response.value.responseType == Some("updateStoreResponse") ==>
                var r := response.value;
                && ready == old(ready)
                && (r.itemId.None? ==> Holds() == old(Holds()))
                && (r.itemId.Some? ==>
                     && storeVersion == (if r.storeVersion.Some? then r.storeVersion.value else 1)
                     && (forall k | k != r.itemId.value :: Lookup(items, k) == Lookup(old(items), k))
                     && Lookup(items, r.itemId.value) ==
                          (if r.newItemValue in {None, Some(Nil)} then None
                           else if convert(r.newItemValue.value).Some? then convert(r.newItemValue.value)
                           else Lookup(old(items), r.itemId.value))
                     && (changed.Some? <==> if r.newItemValue in {None, Some(Nil)} then r.itemId.value in old(items)
                                            else convert(r.newItemValue.value).Some?))
      ensures changed.Some? ==> response.Some? && response.value.itemId == changed
                                && response.value.responseType == Some("updateStoreResponse")
    {
      changed := None;
      if response.None? {
        return;
      }
      var r := response.value;
      if r.storeId != name {
        return;
      }
      if r.responseType == Some("storeContentResponse") {
        if r.items.None? {
          return;
        }
        UpdateVersionFromResponse(r.storeVersion);
        LoadItems(r.items.value);
        ready := true;
        IdentityConverts(convert, r.items.value);
      } else if r.responseType == Some("updateStoreResponse") {
        if r.itemId.None? {
          return;
        }
        var itemId := r.itemId.value;
        UpdateVersionFromResponse(r.storeVersion);
        if r.newItemValue.None? || r.newItemValue.value == Nil {
          if itemId in items {
            items := items - {itemId};
            changed := Some(itemId);
          }
        } else {
          var converted := convert(r.newItemValue.value);
          if converted.None? {
            return;
          }
          items := items[itemId := converted.value];
          changed := Some(itemId);
        }
      }
    }
  }

  lemma IdentityConverts(convert: Value -> Option<Value>, items: map<Id, Value>)
    ensures (forall v :: convert(v) == Some(v)) ==> Convertible(convert, items) == items
  {
  }
}
