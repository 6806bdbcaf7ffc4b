/**
 * The cluster object store the provisioning writes to and reads from: a map
 * from (kind, namespace, name) to artifact. Creating fails when the key is
 * one the store refuses (the caller may not create that kind, or the name is
 * not valid) or is taken, getting fails when it is missing, and both fail
 * while the store is unreachable. Errors are returned to the caller unchanged.
 */
module ObjectStore {
  import opened Wrappers
  import opened Kube

  /** Every artifact sits under its own kind, namespace and name. */
  ghost predicate WellKeyed(objects: map<Key, Artifact>) {
    forall key :: key in objects ==> objects[key].StoreKey() == key
  }

  /** The outcome of a create: the error, if any, and the store afterwards. */
  datatype Created = Created(err: Option<Error>, objects: map<Key, Artifact>)

  /** A create: refused while unreachable, then refused for keys the store
      does not accept, then refused for keys already taken. */
  function CreateIn(objects: map<Key, Artifact>, online: bool, refused: set<Key>, a: Artifact): (r: Created) {
    if !online then Created(Some(Unavailable), objects)
    else if a.StoreKey() in refused then Created(Some(Rejected(a.StoreKey())), objects)
    else if a.StoreKey() in objects then Created(Some(AlreadyExists(a.StoreKey())), objects)
    else Created(None, objects[a.StoreKey() := a])
  }

  function GetFrom(objects: map<Key, Artifact>, online: bool, key: Key): (r: Result<Artifact, Error>) {
    if !online then Failure(Unavailable)
    else if key in objects then Success(objects[key])
    else Failure(NotFound(key))
  }

  /** A create succeeds exactly on a reachable store that accepts the key and
      does not hold it yet, and then the artifact reads back; every other key
      reads as before. Each failure names its cause and leaves the store alone. */
  lemma CreateThenGet(objects: map<Key, Artifact>, online: bool, refused: set<Key>, a: Artifact, other: Key)
    ensures var r := CreateIn(objects, online, refused, a);
      && (r.err == None <==> online && a.StoreKey() !in refused && a.StoreKey() !in objects)
      && (!online ==> r.err == Some(Unavailable))
      && (online && a.StoreKey() in refused ==> r.err == Some(Rejected(a.StoreKey())))
      && (online && a.StoreKey() !in refused && a.StoreKey() in objects ==>
            r.err == Some(AlreadyExists(a.StoreKey())))
      && (r.err != None ==> r.objects == objects)
    ensures var r := CreateIn(objects, online, refused, a);
      r.err == None ==> GetFrom(r.objects, online, a.StoreKey()) == Success(a)
    ensures other != a.StoreKey() ==>
      GetFrom(CreateIn(objects, online, refused, a).objects, online, other) == GetFrom(objects, online, other)
  {
  }

  /** Creating keeps every artifact under its own key. */
  lemma CreateKeepsWellKeyed(objects: map<Key, Artifact>, online: bool, refused: set<Key>, a: Artifact)
    requires WellKeyed(objects)
    ensures WellKeyed(CreateIn(objects, online, refused, a).objects)
  {
  }

  /** The store as a mutable collaborator. Whether it is reachable and which
      keys it refuses are part of its state; creating changes neither. */
  class Store {
    var objects: map<Key, Artifact>
    var online: bool
    var refused: set<Key>

    ghost predicate Valid()
      reads this
    {
      WellKeyed(objects)
    }

    constructor (objects: map<Key, Artifact>, online: bool, refused: set<Key>)
      requires WellKeyed(objects)
      ensures Valid() && this.objects == objects && this.online == online && this.refused == refused
    {
      this.objects := objects;
      this.online := online;
      this.refused := refused;
    }

    method Create(a: Artifact) returns (err: Option<Error>)
      modifies this
      ensures online == old(online) && refused == old(refused)
      ensures Created(err, objects) == CreateIn(old(objects), online, refused, a)
      ensures old(Valid()) ==> Valid()
    {
      var r := CreateIn(objects, online, refused, a);
      if Valid() {
        CreateKeepsWellKeyed(objects, online, refused, a);
      }
      err, objects := r.err, r.objects;
    }

    /** The artifact stored under the key, or why there is none. */
    function Get(key: Key): (r: Result<Artifact, Error>)
      reads this
      requires Valid()
      ensures r.Success? ==> key in objects && r.value == objects[key] && r.value.StoreKey() == key
      ensures r.Failure? ==> r.error == (if online then NotFound(key) else Unavailable)
      ensures r.Failure? <==> !online || key !in objects
    {
      GetFrom(objects, online, key)
    }
  }
}
