/**
 The database manager: the operations as the source runs them, each proved to be the
 operation on the store that the other modules reason about.
 */
module Database {
  import opened Wrappers
  import opened Keys
  import opened Store
  import Validations

  /** A map that has lost some keys and nothing else. */
  lemma MapMinus<V>(before: map<string, V>, after: map<string, V>, keys: set<string>)
    requires forall k :: k in after <==> k in before && k !in keys
    requires forall k :: k in after ==> after[k] == before[k]
    ensures after == before - keys
  {
  }

  class DbManager {
    var counters: map<string, string>
    var families: map<string, Family>
    var handles: set<string>

    function View(): Db
      reads this
    {
      Db(counters, families, handles)
    }

    /** Opening finds what the last run left. */
    constructor (stored: Db)
      ensures View() == stored
    {
      counters, families, handles := stored.counters, stored.families, stored.handles;
    }

    // ---- Reading ----

    method PathExists(path: string) returns (found: bool)
      ensures found == IsEndpoint(View(), path)
    {
      found := path in counters;
    }

    method GetEndpoints() returns (paths: seq<string>)
      ensures paths == InOrder(counters.Keys)
    {
      paths := [];
      var it := NewIterator(counters.Keys);
      for i := 0 to |it|
        invariant |paths| == i && forall j :: 0 <= j < i ==> paths[j] == it[j]
      {
        paths := paths + [it[i]];
      }
    }

    /** The linear scan finds what the point lookup finds. */
    method ScanForEndpoint(path: string) returns (found: bool)
      ensures found == IsEndpoint(View(), path)
    {
      var paths := GetEndpoints();
      found := false;
      for i := 0 to |paths|
        invariant found == (path in paths[..i])
      {
        if paths[i] == path {
          found := true;
        }
      }
      assert paths[..|paths|] == paths;
    }

    /** The documents under the keys, in their order. */
    method ReadEach(family: Family, keys: seq<string>) returns (docs: seq<Json>)
      requires forall k :: k in keys ==> k in family
      ensures docs == Values(family, keys)
    {
      docs := [];
      for i := 0 to |keys|
        invariant |docs| == i && forall j :: 0 <= j < i ==> docs[j] == family[keys[j]]
      {
        docs := docs + [family[keys[i]]];
      }
    }

    /** Follows an iterator over a family to its end. */
    method ReadFamily(family: Family) returns (docs: seq<Json>)
      ensures docs == Listing(family)
    {
      var it := NewIterator(family.Keys);
      docs := ReadEach(family, it);
    }

    method GetAll(path: string) returns (response: Response)
      ensures response == DoGetAll(View(), path)
    {
      if path !in handles {
        return Failed(NoHandle);
      }
      var docs := ReadFamily(FamilyOf(View(), path));
      response := Documents(docs);
    }

    method Get(path: string) returns (response: Response)
      ensures response == DoGet(View(), path)
    {
      var found := ScanForEndpoint(path);
      if found {
        response := GetAll(path);
      } else {
        response := RawGet(View(), path, ALL);
      }
    }

    // ---- Writing ----

    /** `data` comes back with its id. */
    method Post(path: string, data: Json) returns (response: Response)
      requires CanCount(View(), path)
      modifies this`counters, this`families
      ensures (View(), response) == DoPost(old(View()), path, data)
    {
      var found := ScanForEndpoint(path);
      if !found {
        return Ignored;
      }
      var nextId := counters[path];
      if !data.Obj? {
        return Failed(NotAnObject);
      }
      var doc := WithId(data, nextId);
      var newPath := path + "/" + nextId;
      if path !in handles || ALL !in handles {
        return Failed(NoHandle);
      }
      if DigitPrefix(nextId) == [] {
        return Failed(NotANumber);
      }
      var id := Atoi(nextId);
      id := id + 1;
      // One batch: the object, the index, the counter.
      families := PutIn(families, path, newPath, doc);
      families := PutIn(families, ALL, newPath, doc);
      counters := counters[path := ToString(id)];
      response := Created(doc);
    }

    /** Reads the counter of an endpoint and says what it becomes on commit. */
    method CountAndIncrement(path: string) returns (id: nat, next: string)
      requires path in counters && CanCount(View(), path)
      ensures id == Atoi(counters[path]) && next == ToString(id + 1)
    {
      id := Atoi(counters[path]);
      next := ToString(id + 1);
    }

    method Put(path: string, data: Json) returns (response: Response)
      requires CanCount(View(), path)
      modifies this`counters, this`families
      ensures (View(), response) == DoPut(old(View()), path, data)
    {
      response := Done;
      var pathClone := Validations.SanitizePath(path);
      var exists_ := PathExists(pathClone);
      if exists_ {
        var endpoint := ScanForEndpoint(path);
        if endpoint {
          var id, next := CountAndIncrement(path);
          if path !in handles || ALL !in handles {
            return Failed(NoHandle);
          }
          var key := path + "/" + ToString(id);
          // Committed together: the object, the index, the counter.
          families := PutIn(families, path, key, data);
          families := PutIn(families, ALL, key, data);
          counters := counters[path := next];
        } else {
          if ALL !in handles {
            return Failed(NoHandle);
          }
          families := PutIn(families, ALL, path, data);
        }
      }
    }

    method AddEndpoint(path: string, now: int)
      requires IsFresh(View(), path)
      modifies this
      ensures View() == DoAddEndpoint(old(View()), path, now)
    {
      families := families[path := map[]];
      var count := if COUNT in counters then Atoi(counters[COUNT]) else 0;
      families := PutIn(families, ENDPOINTS, DescriptorKey(path), Descriptor(count, path, now));
      counters := counters[COUNT := ToString(count)];
      handles := handles + {path};
      counters := counters[path := "0"];
    }

    /** Deletes keys one by one, from the default family. */
    method DeleteEach(keys: seq<string>)
      modifies this`counters
      ensures counters == old(counters) - set k | k in keys
    {
      ghost var before := counters;
      for i := 0 to |keys|
        invariant forall k :: k in counters <==> k in before && k !in keys[..i]
        invariant forall k :: k in counters ==> counters[k] == before[k]
      {
        counters := counters - {keys[i]};
        assert keys[..i + 1] == keys[..i] + [keys[i]];
      }
      assert keys[..|keys|] == keys;
      MapMinus(before, counters, set k | k in keys);
    }

    /** Follows an iterator over a family and deletes each key, from the default family. */
    method DeleteKeys(keys: set<string>)
      modifies this`counters
      ensures counters == old(counters) - keys
    {
      var it := NewIterator(keys);
      DeleteEach(it);
      assert (set k | k in it) == keys;
    }

    method DeleteEndpoint(path: string) returns (response: Response)
      modifies this
      ensures (View(), response) == DoDeleteEndpoint(old(View()), path)
    {
      var found := ScanForEndpoint(path);
      if !found {
        return Failed(NotAnEndpoint);
      }
      if ENDPOINTS !in handles {
        return Failed(NoHandle);
      }
      if path in handles {
        DeleteKeys(FamilyOf(View(), path).Keys);
      }
      assert counters == old(counters) - if path in handles then FamilyOf(View(), path).Keys else {};
      counters := counters - {path};
      families := families[ENDPOINTS := FamilyOf(View(), ENDPOINTS) - {DescriptorKey(path)}];
      handles := handles - {path};
      families := families - {path};
      response := Done;
    }

    method RawSave(key: string, doc: Json, family: string) returns (response: Response)
      modifies this`families
      ensures (View(), response) == DoRawSave(old(View()), key, doc, family)
    {
      if family !in handles || ALL !in handles {
        return Failed(NoHandle);
      }
      families := PutIn(families, family, key, doc);
      families := PutIn(families, ALL, key, doc);
      response := Done;
    }

    /** Collects, of these keys, those of the tokens that have run out; `None` if a date cannot be read. */
    method ExpiredAmong(tokens: Family, keys: seq<string>, now: int) returns (expired: Option<seq<string>>)
      requires forall k :: k in keys ==> k in tokens
      ensures expired.None? <==> exists k :: k in keys && ValidUntil(tokens[k]).None?
      ensures expired.Some? ==> forall k :: k in expired.value <==> k in keys && Expired(tokens[k], now)
    {
      var found: seq<string> := [];
      for i := 0 to |keys|
        invariant forall k :: k in found ==> k in keys && Expired(tokens[k], now)
        invariant forall j :: 0 <= j < i ==> ValidUntil(tokens[keys[j]]).Some?
        invariant forall j :: 0 <= j < i && Expired(tokens[keys[j]], now) ==> keys[j] in found
      {
        var validUntil := ValidUntil(tokens[keys[i]]);
        if validUntil.None? {
          return None;
        }
        var isValid := validUntil.value > now;
        if !isValid {
          found := found + [keys[i]];
        }
      }
      expired := Some(found);
    }

    /** Follows an iterator over the tokens. */
    method ExpiredTokens(tokens: Family, now: int) returns (expired: Option<seq<string>>)
      ensures expired.None? <==> exists k :: k in tokens && ValidUntil(tokens[k]).None?
      ensures expired.Some? ==> forall k :: k in expired.value <==> k in tokens && Expired(tokens[k], now)
    {
      var it := NewIterator(tokens.Keys);
      expired := ExpiredAmong(tokens, it, now);
    }

    /** Deletes keys one by one from a family. */
    method DeleteFrom(name: string, keys: seq<string>)
      requires name in families
      modifies this`families
      ensures families == old(families)[name := old(families)[name] - set k | k in keys]
    {
      ghost var family := families[name];
      for i := 0 to |keys|
        invariant name in families && families == old(families)[name := families[name]]
        invariant forall k :: k in families[name] <==> k in family && k !in keys[..i]
        invariant forall k :: k in families[name] ==> families[name][k] == family[k]
      {
        families := families[name := families[name] - {keys[i]}];
        assert keys[..i + 1] == keys[..i] + [keys[i]];
      }
      assert keys[..|keys|] == keys;
      MapMinus(family, families[name], set k | k in keys);
      assert families[name] == family - set k | k in keys;
    }

    method CleanTokens(now: int) returns (response: Response)
      modifies this`families
      ensures (View(), response) == DoCleanTokens(old(View()), now)
    {
      if TOKENS !in handles || TOKENS !in families {
        return Failed(NoHandle);
      }
      ghost var tokens := families[TOKENS];
      var expired := ExpiredTokens(families[TOKENS], now);
      if expired.None? {
        return Failed(NoDate);
      }
      DeleteFrom(TOKENS, expired.value);
      assert families[TOKENS] == map k | k in tokens && !Expired(tokens[k], now) :: tokens[k];
      response := Done;
    }
  }
}
