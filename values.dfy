/**
 * The Python values the codec handles: JSON data from the request and the
 * checkpoint, plus the message objects LangGraph keeps in the checkpoint.
 * Dictionaries are values here; the dictionaries the code mutates in place
 * are objects of class Dicts.Dict.
 *
 * Besides the value type, the module gives the three Python operations the
 * code applies to these values: truthiness (`if x`), membership (`k in x`)
 * and subscripting (`x[k]`, `x[a][b] = v`, `del x[a][b]`), each with the
 * exception Python raises when the value has the wrong shape.
 */
module Values {
  import opened Wrappers
  import opened Messages

  datatype Value =
    | Null
    | Bool(b: bool)
    | Int(i: int)
    | Str(s: string)
    | List(items: seq<Value>)
    | Object(fields: map<string, Value>)
    | Message(msg: Msg)

  /** The exceptions the modelled code can raise. */
  datatype Error =
    | KeyError(key: string)          // `d[key]` or `del d[key]` on a dict without that key
    | NotSubscriptable(key: string)  // `x[key]` (read, write or del) on a value that is not a dict
    | NotIterable                    // `key in x` on a number, a boolean or None
    | NoContent                      // `obj.content` on an item that is not a message object
    | BadPromptList                  // a prompt list whose items cannot become message contents

  /** Python truthiness of a value. */
  predicate Truthy(v: Value)
  {
    match v
    case Null => false
    case Bool(b) => b
    case Int(i) => i != 0
    case Str(s) => s != ""
    case List(items) => items != []
    case Object(m) => m != map[]
    case Message(_) => true
  }

  /** `k` occurs contiguously in `s` (Python's `k in s` on strings). */
  predicate IsInfix(k: string, s: string)
  {
    k <= s || (s != "" && IsInfix(k, s[1..]))
  }

  /** The substring test means: `k` is a prefix of some suffix of `s`. */
  lemma {:induction false} IsInfixIff(k: string, s: string)
    ensures IsInfix(k, s) <==> exists i | 0 <= i <= |s| :: k <= s[i..]
    decreases |s|
  {
    assert s[0..] == s;
    if s != "" {
      IsInfixIff(k, s[1..]);
      if IsInfix(k, s) && !(k <= s) {
        var i :| 0 <= i <= |s| - 1 && k <= s[1..][i..];
        assert s[1..][i..] == s[i + 1..];
        assert k <= s[i + 1..];
      }
      if exists i | 0 <= i <= |s| :: k <= s[i..] {
        var i :| 0 <= i <= |s| && k <= s[i..];
        if i > 0 {
          assert s[1..][i - 1..] == s[i..];
          assert IsInfix(k, s[1..]);
        }
        assert IsInfix(k, s);
      }
    } else {
      assert forall i | 0 <= i <= |s| :: s[i..] == s;
    }
  }

  /** Python's `key in v`: a key test on dicts, an element test on lists, a substring test on strings. */
  function Contains(v: Value, key: string): (r: Result<bool, Error>)
    ensures r.Failure? <==> v.Null? || v.Bool? || v.Int?
    ensures v.Object? ==> r == Success(key in v.fields)
    ensures v.List? ==> r == Success(Str(key) in v.items)
    ensures v.Str? ==> r == Success(IsInfix(key, v.s))
  {
    match v
    case Object(m) => Success(key in m)
    case List(items) => Success(Str(key) in items)
    case Str(s) => Success(IsInfix(key, s))
    case Message(_) => Success(false)  // a message object iterates over (field, value) pairs
    case _ => Failure(NotIterable)
  }

  /** Python's `v[key]` with a string key. */
  function Lookup(v: Value, key: string): (r: Result<Value, Error>)
    ensures r.Success? <==> v.Object? && key in v.fields
    ensures r.Success? ==> r.value == v.fields[key]
  {
    match v
    case Object(m) => if key in m then Success(m[key]) else Failure(KeyError(key))
    case _ => Failure(NotSubscriptable(key))
  }

  /** `v[path[0]][path[1]]...`, evaluated left to right. */
  function Resolve(v: Value, path: seq<string>): Result<Value, Error>
    decreases |path|
  {
    if path == [] then Success(v)
    else
      var child :- Lookup(v, path[0]);
      Resolve(child, path[1..])
  }

  function Parent(path: seq<string>): seq<string>
    requires path != []
  {
    path[..|path| - 1]
  }

  function Last(path: seq<string>): string
    requires path != []
  {
    path[|path| - 1]
  }

  /** `v[path[0]]...[path[-1]] = x`: the new value of `v` after the assignment. */
  function SetAt(v: Value, path: seq<string>, x: Value): (r: Result<Value, Error>)
    requires path != []
    ensures r.Success? ==> v.Object? && r.value.Object?
    decreases |path|
  {
    if |path| == 1 then
      match v
      case Object(m) => Success(Object(m[path[0] := x]))
      case _ => Failure(NotSubscriptable(path[0]))
    else
      var child :- Lookup(v, path[0]);
      var child' :- SetAt(child, path[1..], x);
      Success(Object(v.fields[path[0] := child']))
  }

  /** `del v[path[0]]...[path[-1]]`: the new value of `v` after the deletion. */
  function DeleteAt(v: Value, path: seq<string>): (r: Result<Value, Error>)
    requires path != []
    ensures r.Success? ==> v.Object? && r.value.Object?
    decreases |path|
  {
    if |path| == 1 then
      match v
      case Object(m) => if path[0] in m then Success(Object(m - {path[0]})) else Failure(KeyError(path[0]))
      case _ => Failure(NotSubscriptable(path[0]))
    else
      var child :- Lookup(v, path[0]);
      var child' :- DeleteAt(child, path[1..]);
      Success(Object(v.fields[path[0] := child']))
  }

  /** Two paths that part at some position: neither is a prefix of the other. */
  predicate Diverge(p: seq<string>, q: seq<string>)
  {
    p != [] && q != [] && (p[0] != q[0] || Diverge(p[1..], q[1..]))
  }

  /** An assignment succeeds exactly when the all-but-last keys lead to a dict. */
  lemma {:induction false} SetSucceedsIff(v: Value, path: seq<string>, x: Value)
    requires path != []
    ensures SetAt(v, path, x).Success?
        <==> Resolve(v, Parent(path)).Success? && Resolve(v, Parent(path)).value.Object?
    decreases |path|
  {
    if |path| > 1 {
      assert Parent(path)[0] == path[0];
      assert Parent(path)[1..] == Parent(path[1..]);
      if Lookup(v, path[0]).Success? {
        SetSucceedsIff(v.fields[path[0]], path[1..], x);
      }
    }
  }

  /** A deletion succeeds exactly when the whole path resolves. */
  lemma {:induction false} DeleteSucceedsIff(v: Value, path: seq<string>)
    requires path != []
    ensures DeleteAt(v, path).Success? <==> Resolve(v, path).Success?
    decreases |path|
  {
    if |path| > 1 && Lookup(v, path[0]).Success? {
      DeleteSucceedsIff(v.fields[path[0]], path[1..]);
    }
  }

  /** After `... [k] = x`, reading the same path gives `x`. */
  lemma {:induction false} SetThenResolve(v: Value, path: seq<string>, x: Value)
    requires path != []
    requires SetAt(v, path, x).Success?
    ensures Resolve(SetAt(v, path, x).value, path) == Success(x)
    decreases |path|
  {
    if |path| > 1 {
      SetThenResolve(v.fields[path[0]], path[1..], x);
    }
  }

  /** After `del ... [k]`, reading the same path raises KeyError for `k`. */
  lemma {:induction false} DeleteThenResolve(v: Value, path: seq<string>)
    requires path != []
    requires DeleteAt(v, path).Success?
    ensures Resolve(DeleteAt(v, path).value, path) == Failure(KeyError(Last(path)))
    decreases |path|
  {
    if |path| > 1 {
      DeleteThenResolve(v.fields[path[0]], path[1..]);
    }
  }

  /** An assignment leaves every path that parts from the assigned one unchanged. */
  lemma {:induction false} SetFrame(v: Value, path: seq<string>, x: Value, q: seq<string>)
    requires path != []
    requires SetAt(v, path, x).Success?
    requires Diverge(path, q)
    ensures Resolve(SetAt(v, path, x).value, q) == Resolve(v, q)
    decreases |path|
  {
    var w := SetAt(v, path, x).value;
    if path[0] == q[0] {
      SetFrame(v.fields[path[0]], path[1..], x, q[1..]);
    } else {
      assert Lookup(w, q[0]) == Lookup(v, q[0]);
    }
  }

  /** A deletion leaves every path that parts from the deleted one unchanged. */
  lemma {:induction false} DeleteFrame(v: Value, path: seq<string>, q: seq<string>)
    requires path != []
    requires DeleteAt(v, path).Success?
    requires Diverge(path, q)
    ensures Resolve(DeleteAt(v, path).value, q) == Resolve(v, q)
    decreases |path|
  {
    var w := DeleteAt(v, path).value;
    if path[0] == q[0] {
      DeleteFrame(v.fields[path[0]], path[1..], q[1..]);
    } else {
      assert Lookup(w, q[0]) == Lookup(v, q[0]);
    }
  }

  /** Putting back what a deletion removed restores the original value. */
  lemma {:induction false} SetRestoresDeleted(v: Value, path: seq<string>)
    requires path != []
    requires Resolve(v, path).Success?
    ensures DeleteAt(v, path).Success?
    ensures SetAt(DeleteAt(v, path).value, path, Resolve(v, path).value) == Success(v)
    decreases |path|
  {
    DeleteSucceedsIff(v, path);
    var m := v.fields;
    if |path| == 1 {
      assert (m - {path[0]})[path[0] := m[path[0]]] == m;
    } else {
      SetRestoresDeleted(m[path[0]], path[1..]);
      var child' := DeleteAt(m[path[0]], path[1..]).value;
      assert DeleteAt(v, path).value == Object(m[path[0] := child']);
      assert m[path[0] := child'][path[0] := m[path[0]]] == m;
    }
  }

  /**
   * Deleting what an assignment wrote gives back the original value when the
   * key was new, and the same as deleting from the original when it was not.
   */
  lemma {:induction false} DeleteUndoesSet(v: Value, path: seq<string>, x: Value)
    requires path != []
    requires SetAt(v, path, x).Success?
    ensures DeleteAt(SetAt(v, path, x).value, path)
              == if Resolve(v, path).Success? then DeleteAt(v, path) else Success(v)
    decreases |path|
  {
    var m := v.fields;
    if |path| == 1 {
      if path[0] !in m {
        assert m[path[0] := x] - {path[0]} == m;
      } else {
        assert m[path[0] := x] - {path[0]} == m - {path[0]};
      }
    } else {
      DeleteUndoesSet(m[path[0]], path[1..], x);
      var child' := SetAt(m[path[0]], path[1..], x).value;
      var w := SetAt(v, path, x).value;
      assert w == Object(m[path[0] := child']);
      assert Lookup(w, path[0]) == Success(child');
      var d := DeleteAt(child', path[1..]);
      if Resolve(m[path[0]], path[1..]).Success? {
        DeleteSucceedsIff(m[path[0]], path[1..]);
        assert m[path[0] := child'][path[0] := d.value] == m[path[0] := d.value];
      } else {
        assert m[path[0] := child'][path[0] := m[path[0]]] == m;
      }
    }
  }
}
