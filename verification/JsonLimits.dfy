/** Depth and key limits of a parsed JSON value, checked with an explicit stack. */
module JsonLimits {
  import opened Wrappers

  datatype Member = Member(key: string, value: Json)

  datatype Json =
    | Null | Bool(b: bool) | Number(n: real) | Text(t: string)
    | Items(items: seq<Json>) | Object(members: seq<Member>)

  datatype LimitError = TooDeep | TooManyKeys

  datatype Pending = Pending(value: Json, depth: nat)

  function Values(members: seq<Member>): (r: seq<Json>)
    ensures |r| == |members| && forall i :: 0 <= i < |r| ==> r[i] == members[i].value
  {
    seq(|members|, i requires 0 <= i < |members| => members[i].value)
  }

  /** The values directly inside a value. */
  function Children(v: Json): (r: seq<Json>)
    ensures forall i :: 0 <= i < |r| ==> r[i] < v
  {
    match v
    case Items(items) => items
    case Object(members) =>
      assert forall i :: 0 <= i < |members| ==> members[i].value < members[i] < v;
      Values(members)
    case _ => []
  }

  /** Nesting depth: a value on its own is one deep. */
  function Depth(v: Json): nat
    decreases v
  {
    1 + MaxDepth(v, Children(v))
  }

  function MaxDepth(ghost parent: Json, vs: seq<Json>): nat
    requires forall i :: 0 <= i < |vs| ==> vs[i] < parent
    decreases parent, |vs|
  {
    if vs == [] then 0 else
      var rest, last := MaxDepth(parent, vs[..|vs| - 1]), Depth(vs[|vs| - 1]);
      if last > rest then last else rest
  }

  /** How many keys a value holds, at any depth. */
  function Keys(v: Json): nat
    decreases v
  {
    (if v.Object? then |v.members| else 0) + AllKeys(v, Children(v))
  }

  function AllKeys(ghost parent: Json, vs: seq<Json>): nat
    requires forall i :: 0 <= i < |vs| ==> vs[i] < parent
    decreases parent, |vs|
  {
    if vs == [] then 0 else AllKeys(parent, vs[..|vs| - 1]) + Keys(vs[|vs| - 1])
  }

  /** How many values there are, itself included. */
  ghost function Size(v: Json): nat
    decreases v
  {
    1 + AllSizes(v, Children(v))
  }

  ghost function AllSizes(parent: Json, vs: seq<Json>): nat
    requires forall i :: 0 <= i < |vs| ==> vs[i] < parent
    decreases parent, |vs|
  {
    if vs == [] then 0 else AllSizes(parent, vs[..|vs| - 1]) + Size(vs[|vs| - 1])
  }

  ghost function StackKeys(stack: seq<Pending>): nat {
    if stack == [] then 0 else StackKeys(stack[..|stack| - 1]) + Keys(stack[|stack| - 1].value)
  }

  ghost function StackSize(stack: seq<Pending>): nat {
    if stack == [] then 0 else StackSize(stack[..|stack| - 1]) + Size(stack[|stack| - 1].value)
  }

  /** No value on the stack reaches deeper than the limit. */
  ghost predicate Shallow(stack: seq<Pending>, limit: int) {
    forall i :: 0 <= i < |stack| ==> stack[i].depth + Depth(stack[i].value) - 1 <= limit
  }

  function AtDepth(vs: seq<Json>, depth: nat): (r: seq<Pending>)
    ensures |r| == |vs| && forall i :: 0 <= i < |r| ==> r[i] == Pending(vs[i], depth)
  {
    seq(|vs|, i requires 0 <= i < |vs| => Pending(vs[i], depth))
  }

  lemma PushOne(stack: seq<Pending>, p: Pending)
    ensures StackKeys(stack + [p]) == StackKeys(stack) + Keys(p.value)
      && StackSize(stack + [p]) == StackSize(stack) + Size(p.value)
  {
    var all := stack + [p];
    assert all[..|all| - 1] == stack && all[|all| - 1] == p;
    hide Keys, Size;
  }

  /** Pushing the children of a value onto the stack. */
  lemma {:induction false} Pushed(stack: seq<Pending>, parent: Json, vs: seq<Json>, depth: nat)
    requires forall i :: 0 <= i < |vs| ==> vs[i] < parent
    ensures StackKeys(stack + AtDepth(vs, depth)) == StackKeys(stack) + AllKeys(parent, vs)
    ensures StackSize(stack + AtDepth(vs, depth)) == StackSize(stack) + AllSizes(parent, vs)
    decreases |vs|
  {
    hide StackKeys, StackSize, Keys, Size;
    if vs == [] {
      assert stack + AtDepth(vs, depth) == stack;
    } else {
      var n := |vs| - 1;
      Pushed(stack, parent, vs[..n], depth);
      PushOne(stack + AtDepth(vs[..n], depth), Pending(vs[n], depth));
      assert stack + AtDepth(vs, depth) == stack + AtDepth(vs[..n], depth) + [Pending(vs[n], depth)];
    }
  }

  lemma {:induction false} MaxDepthMeans(parent: Json, vs: seq<Json>, limit: int)
    requires (forall i :: 0 <= i < |vs| ==> vs[i] < parent) && limit >= 0
    ensures MaxDepth(parent, vs) <= limit <==> forall i :: 0 <= i < |vs| ==> Depth(vs[i]) <= limit
    decreases |vs|
  {
    if vs != [] {
      var n := |vs| - 1;
      MaxDepthMeans(parent, vs[..n], limit);
      assert forall i :: 0 <= i < n ==> vs[i] == vs[..n][i];
    }
  }

  /** Replacing the top of the stack by its children changes nothing about the depth reached, provided the
      top itself is within the limit. */
  lemma ShallowStep(stack: seq<Pending>, top: Pending, limit: nat)
    requires 1 <= top.depth <= limit
    ensures Shallow(stack + [top], limit) <==> Shallow(stack + AtDepth(Children(top.value), top.depth + 1), limit)
  {
    var vs := Children(top.value);
    var before, after := stack + [top], stack + AtDepth(vs, top.depth + 1);
    MaxDepthMeans(top.value, vs, limit - top.depth);
    if Shallow(before, limit) {
      assert before[|stack|] == top;
      forall i | 0 <= i < |after| ensures after[i].depth + Depth(after[i].value) - 1 <= limit {
        if i < |stack| {
          assert after[i] == before[i];
        } else {
          assert after[i] == Pending(vs[i - |stack|], top.depth + 1);
        }
      }
    }
    if Shallow(after, limit) {
      forall i | 0 <= i < |vs| ensures Depth(vs[i]) <= limit - top.depth {
        assert after[|stack| + i] == Pending(vs[i], top.depth + 1);
      }
      forall i | 0 <= i < |before| ensures before[i].depth + Depth(before[i].value) - 1 <= limit {
        if i < |stack| {
          assert before[i] == after[i];
        }
      }
    }
  }

  /** The walk accepts exactly the values whose nesting depth and total number of keys are within the
      limits, and blames a limit only if it is exceeded. */
  method CheckLimits(root: Json, maxDepth: nat, maxKeys: nat) returns (r: Result<(), LimitError>)
    requires maxDepth >= 1
    ensures r.Ok? <==> Depth(root) <= maxDepth && Keys(root) <= maxKeys
    ensures r == Err(TooDeep) ==> Depth(root) > maxDepth
    ensures r == Err(TooManyKeys) ==> Keys(root) > maxKeys
  {
    hide Depth, Keys, Size, Shallow, StackKeys, StackSize, AllKeys, AllSizes;
    NothingPending(maxDepth);
    var keys := 0;
    var stack := [Pending(root, 1)];
    PushOne([], Pending(root, 1));
    RootShallow(root, maxDepth);
    assert [] + [Pending(root, 1)] == stack;
    while stack != []
      invariant forall i :: 0 <= i < |stack| ==> stack[i].depth >= 1
      invariant keys + StackKeys(stack) == Keys(root) && keys <= maxKeys
      invariant Shallow(stack, maxDepth) <==> Depth(root) <= maxDepth
      decreases StackSize(stack)
    {
      var rest, top := stack[..|stack| - 1], stack[|stack| - 1];
      assert stack == rest + [top];
      PushOne(rest, top);
      ValueParts(top.value);
      if top.depth > maxDepth {
        TopTooDeep(rest, top, maxDepth);
        return Err(TooDeep);
      }
      Pushed(rest, top.value, Children(top.value), top.depth + 1);
      ShallowStep(rest, top, maxDepth);
      match top.value {
        case Object(members) =>
          keys := keys + |members|;
          if keys > maxKeys {
            return Err(TooManyKeys);
          }
          stack := rest + AtDepth(Values(members), top.depth + 1);
        case Items(items) =>
          stack := rest + AtDepth(items, top.depth + 1);
        case _ =>
          assert rest + AtDepth(Children(top.value), top.depth + 1) == rest;
          stack := rest;
      }
    }
    return Ok(());
  }

  lemma RootShallow(root: Json, limit: nat)
    ensures Shallow([Pending(root, 1)], limit) <==> Depth(root) <= limit
  {
    hide Depth;
    assert [Pending(root, 1)][0] == Pending(root, 1);
  }

  lemma NothingPending(limit: nat)
    ensures Shallow([], limit) && StackKeys([]) == 0 && StackSize([]) == 0
  {
  }

  lemma TopTooDeep(rest: seq<Pending>, top: Pending, limit: nat)
    requires top.depth > limit
    ensures !Shallow(rest + [top], limit)
  {
    assert (rest + [top])[|rest|] == top;
  }

  /** A value's keys and size are its own and its children's. */
  lemma ValueParts(v: Json)
    ensures Keys(v) == (if v.Object? then |v.members| else 0) + AllKeys(v, Children(v))
    ensures Size(v) == 1 + AllSizes(v, Children(v))
  {
  }
}
