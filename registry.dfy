/** The pure list operations the gateway applies to its list of entries:
    `Array.prototype.find` (First), `filter` by connection id (Without) and
    `map` to the names (Names), with the facts the handlers rely on. */
module Registry {
  import opened Chat

  datatype Option<T> = None | Some(value: T)

  /** The index of the first element satisfying `p`, as `find` returns the
      first such element; None when no element does. */
  function First<T>(s: seq<T>, p: T -> bool): (r: Option<nat>)
    ensures r.Some? ==> r.value < |s| && p(s[r.value])
    ensures r.Some? ==> forall j :: 0 <= j < r.value ==> !p(s[j])
    ensures r.None? <==> forall j :: 0 <= j < |s| ==> !p(s[j])
  {
    if s == [] then None
    else if p(s[0]) then Some(0)
    else match First(s[1..], p)
      case None => None
      case Some(i) => Some(i + 1)
  }

  /** The lookup predicate of `sendMessageTo`: the entry's name is `name`. */
  function HasName(name: string): Entry -> bool
  {
    (e: Entry) => e.name == name
  }

  /** The lookup predicate of `handleDisconnect`: the entry belongs to connection `id`. */
  function HasClient(id: ConnId): Entry -> bool
  {
    (e: Entry) => e.client == id
  }

  /** The names of the entries, in list order and with duplicates. */
  function Names(cs: seq<Entry>): (r: seq<string>)
    ensures |r| == |cs|
    ensures forall i :: 0 <= i < |cs| ==> r[i] == cs[i].name
  {
    if cs == [] then [] else [cs[0].name] + Names(cs[1..])
  }

  /** The entries whose connection is not `id`, in their original order. */
  function Without(cs: seq<Entry>, id: ConnId): (r: seq<Entry>)
    ensures |r| <= |cs|
    ensures forall e :: e in r <==> e in cs && e.client != id
    ensures r == cs <==> forall j :: 0 <= j < |cs| ==> cs[j].client != id
  {
    if cs == [] then []
    else if cs[0].client == id then Without(cs[1..], id)
    else [cs[0]] + Without(cs[1..], id)
  }

  /** Mapping to names commutes with concatenation. */
  lemma {:induction false} NamesAppend(a: seq<Entry>, b: seq<Entry>)
    ensures Names(a + b) == Names(a) + Names(b)
  {
    if a != [] {
      assert (a + b)[1..] == a[1..] + b;
      NamesAppend(a[1..], b);
    }
  }

  /** Filtering commutes with concatenation: the entries that survive keep
      their relative order. */
  lemma {:induction false} WithoutAppend(a: seq<Entry>, b: seq<Entry>, id: ConnId)
    ensures Without(a + b, id) == Without(a, id) + Without(b, id)
  {
    if a != [] {
      assert (a + b)[0] == a[0] && (a + b)[1..] == a[1..] + b;
      WithoutAppend(a[1..], b, id);
      if a[0].client != id {
        assert [a[0]] + (Without(a[1..], id) + Without(b, id))
            == ([a[0]] + Without(a[1..], id)) + Without(b, id);
      }
    } else {
      assert a + b == b;
    }
  }

  /** Filtering keeps every entry of another connection as often as it
      occurs, and no entry of the connection. */
  lemma {:induction false} WithoutMultiplicity(cs: seq<Entry>, id: ConnId, e: Entry)
    ensures multiset(Without(cs, id))[e] == if e.client == id then 0 else multiset(cs)[e]
  {
    if cs != [] {
      assert cs == [cs[0]] + cs[1..];
      WithoutAppend([cs[0]], cs[1..], id);
      WithoutMultiplicity(cs[1..], id, e);
      if cs[0].client == id {
        assert Without([cs[0]], id) == Without([], id);
      }
    }
  }

  /** Filtering twice by the same id removes nothing more. */
  lemma WithoutIdempotent(cs: seq<Entry>, id: ConnId)
    ensures Without(Without(cs, id), id) == Without(cs, id)
  {
    var r := Without(cs, id);
    forall j | 0 <= j < |r| ensures r[j].client != id {
      assert r[j] in r;
    }
  }

  /** Removing the entries of a connection that `First` finds none of changes nothing. */
  lemma WithoutAbsent(cs: seq<Entry>, id: ConnId)
    requires First(cs, HasClient(id)).None?
    ensures Without(cs, id) == cs
  {
    forall j | 0 <= j < |cs| ensures cs[j].client != id {
      assert !HasClient(id)(cs[j]);
    }
  }

  /** When `First` finds an entry of the connection, filtering shrinks the list. */
  lemma WithoutPresent(cs: seq<Entry>, id: ConnId)
    requires First(cs, HasClient(id)).Some?
    ensures |Without(cs, id)| < |cs|
  {
    var i := First(cs, HasClient(id)).value;
    assert HasClient(id)(cs[i]);
  }

  /** Appending an entry for a connection that has none yet, then filtering
      that connection out, gives the original list back. */
  lemma DisconnectUndoesRegister(cs: seq<Entry>, name: string, id: ConnId)
    requires forall j :: 0 <= j < |cs| ==> cs[j].client != id
    ensures Without(cs + [Entry(name, id)], id) == cs
  {
    WithoutAppend(cs, [Entry(name, id)], id);
    assert Without([Entry(name, id)], id) == Without([], id);
  }

  /** First-match lookup is stable under appending: an element found in `a`
      is still the one found in `a + b`; otherwise the search continues
      into `b`. */
  lemma {:induction false} FirstAppend<T>(a: seq<T>, b: seq<T>, p: T -> bool)
    ensures First(a + b, p) ==
      match First(a, p)
      case Some(i) => Some(i)
      case None =>
        match First(b, p)
        case None => None
        case Some(j) => Some(|a| + j)
  {
    if a != [] {
      assert (a + b)[0] == a[0] && (a + b)[1..] == a[1..] + b;
      FirstAppend(a[1..], b, p);
    } else {
      assert a + b == b;
    }
  }
}
