/**
 * The scene registry (struct Scene in src/main.cpp): a name-keyed map of
 * objects with insert-if-absent, a draw-everything pass and a release pass.
 * The map's iteration order is unspecified, so Render and Clear pick the next
 * entry arbitrarily and report the order they used.
 */
module Scenes {
  import opened Linear
  import opened Gl
  import opened Objects

  /** order lists every key of keys exactly once, and nothing else. */
  predicate IsEnumeration(order: seq<string>, keys: set<string>)
  {
    && (forall i, j :: 0 <= i < j < |order| ==> order[i] != order[j])
    && (forall k :: k in order ==> k in keys)
    && (forall k :: k in keys ==> k in order)
  }

  /** An enumeration is as long as the set it enumerates. */
  lemma {:induction false} EnumerationSize(order: seq<string>, keys: set<string>)
    requires IsEnumeration(order, keys)
    ensures |order| == |keys|
    decreases |order|
  {
    if order != [] {
      var n := |order| - 1;
      var last := order[n];
      assert forall i :: 0 <= i < n ==> order[..n][i] == order[i];
      assert forall k :: k in order[..n] <==> k in order && k != last by {
        forall k | k in order
          ensures k in order[..n] <==> k != last
        {
          var i :| 0 <= i < |order| && order[i] == k;
          if i == n {
            assert forall j :: 0 <= j < n ==> order[..n][j] != last;
          } else {
            assert order[..n][i] == k;
          }
        }
      }
      EnumerationSize(order[..n], keys - {last});
    }
  }

  /** How many elements of s satisfy p. */
  function Count<T>(s: seq<T>, p: T -> bool): nat
    decreases |s|
  {
    if s == [] then 0 else Count(s[..|s| - 1], p) + (if p(s[|s| - 1]) then 1 else 0)
  }

  /** Counting over a + b is counting over a, then over b. */
  lemma {:induction false} CountAppend<T>(a: seq<T>, b: seq<T>, p: T -> bool)
    ensures Count(a + b, p) == Count(a, p) + Count(b, p)
    decreases |b|
  {
    if b == [] {
      assert a + b == a;
    } else {
      var n := |b| - 1;
      assert (a + b)[..|a + b| - 1] == a + b[..n];
      CountAppend(a, b[..n], p);
    }
  }

  /** How many times k occurs in order. */
  function Occurrences(order: seq<string>, k: string): nat
  {
    Count(order, (x: string) => x == k)
  }

  /** In an enumeration, each key occurs exactly once and every other string not at all. */
  lemma {:induction false} EnumerationOccurrences(order: seq<string>, keys: set<string>, k: string)
    requires IsEnumeration(order, keys)
    ensures Occurrences(order, k) == if k in keys then 1 else 0
    decreases |order|
  {
    if order != [] {
      var n := |order| - 1;
      var last := order[n];
      var pre := order[..n];
      assert forall i :: 0 <= i < n ==> pre[i] == order[i];
      assert forall x :: x in pre <==> x in order && x != last by {
        forall x | x in order
          ensures x in pre <==> x != last
        {
          var i :| 0 <= i < |order| && order[i] == x;
          if i == n {
            assert forall j :: 0 <= j < n ==> pre[j] != last;
          } else {
            assert pre[i] == x;
          }
        }
      }
      EnumerationOccurrences(pre, keys - {last}, k);
    }
  }

  /** addObj: bind name to obj unless name is already bound. */
  function Insert(m: map<string, Object>, name: string, obj: Object): (r: map<string, Object>)
    ensures name in r && r[name] == (if name in m then m[name] else obj)
    ensures name in m ==> r == m
    ensures forall k :: k != name ==> (k in r <==> k in m) && (k in m ==> r[k] == m[k])
    ensures |r| == if name in m then |m| else |m| + 1
  {
    if name in m then m else m[name := obj]
  }

  /** The per-object body of render: bind its geometry, set its model matrix, draw its indices. */
  function EntryCommands(o: Object, program: nat): seq<Command>
  {
    [ BindVertexArray(o.vao),
      SetUniform(program, ModelUniform, MatValue(GetModel(o))),
      DrawElements(o.count) ]
  }

  predicate InMap(order: seq<string>, objects: map<string, Object>)
  {
    forall i :: 0 <= i < |order| ==> order[i] in objects
  }

  /** What render issues when it visits the entries in the given order. */
  function DrawAll(objects: map<string, Object>, order: seq<string>, program: nat): seq<Command>
    requires InMap(order, objects)
    decreases |order|
  {
    if order == [] then []
    else DrawAll(objects, order[..|order| - 1], program) + EntryCommands(objects[order[|order| - 1]], program)
  }

  /** The draw an entry should produce, drawn into target fbo/viewport by program with the given light-space uniform. */
  function EntryDraw(o: Object, fbo: nat, viewport: Viewport, program: nat, lightSpace: Option<UniformValue>): DrawEvent
  {
    DrawEvent(fbo, viewport, program, o.vao, o.count, Some(MatValue(GetModel(o))), lightSpace)
  }

  /** One draw per visited entry, in visiting order, each with that entry's geometry, count and model matrix. */
  function ExpectedDraws(objects: map<string, Object>, order: seq<string>, fbo: nat, viewport: Viewport,
                         program: nat, lightSpace: Option<UniformValue>): (r: seq<DrawEvent>)
    requires InMap(order, objects)
    ensures |r| == |order|
  {
    seq(|order|, j requires 0 <= j < |order| => EntryDraw(objects[order[j]], fbo, viewport, program, lightSpace))
  }

  /**
   * Replaying render from a state in which program is active: each entry is
   * drawn once into the currently bound target with its own vertex array,
   * index count and model matrix, and with the light-space uniform the
   * program already had; the target, viewport, program and that uniform are
   * left as they were.
   */
  lemma {:induction false} DrawAllRun(s: GlState, objects: map<string, Object>, order: seq<string>, program: nat)
    requires s.program == program
    requires InMap(order, objects)
    ensures Exec(s, DrawAll(objects, order, program)).draws
         == ExpectedDraws(objects, order, s.fbo, s.viewport, program, Uniform(s, program, LightSpaceUniform))
    ensures var t := Exec(s, DrawAll(objects, order, program)).final;
      && t.fbo == s.fbo && t.viewport == s.viewport && t.program == s.program
      && Uniform(t, program, LightSpaceUniform) == Uniform(s, program, LightSpaceUniform)
    decreases |order|
  {
    var ls := Uniform(s, program, LightSpaceUniform);
    if order == [] {
      assert ExpectedDraws(objects, order, s.fbo, s.viewport, program, ls) == [];
    } else {
      var n := |order| - 1;
      var pre := order[..n];
      var o := objects[order[n]];
      assert InMap(pre, objects);
      DrawAllRun(s, objects, pre, program);
      ExecAppend(s, DrawAll(objects, pre, program), EntryCommands(o, program));
      var t := Exec(s, DrawAll(objects, pre, program)).final;
      EntryRun(t, o, program);
      assert ExpectedDraws(objects, order, s.fbo, s.viewport, program, ls)
          == ExpectedDraws(objects, pre, s.fbo, s.viewport, program, ls) + [EntryDraw(o, s.fbo, s.viewport, program, ls)];
    }
  }

  /** One visit of render: exactly one draw, with the entry's own data. */
  lemma EntryRun(t: GlState, o: Object, program: nat)
    requires t.program == program
    ensures Exec(t, EntryCommands(o, program)).draws
         == [EntryDraw(o, t.fbo, t.viewport, program, Uniform(t, program, LightSpaceUniform))]
    ensures var u := Exec(t, EntryCommands(o, program)).final;
      && u.fbo == t.fbo && u.viewport == t.viewport && u.program == t.program
      && Uniform(u, program, LightSpaceUniform) == Uniform(t, program, LightSpaceUniform)
  {
    var e := EntryCommands(o, program);
    assert e == [e[0]] + ([e[1]] + [e[2]]);
    ExecAppend(t, [e[0]], [e[1]] + [e[2]]);
    var t1 := Step(t, e[0]).final;
    ExecSingle(t, e[0]);
    ExecAppend(t1, [e[1]], [e[2]]);
    var t2 := Step(t1, e[1]).final;
    ExecSingle(t1, e[1]);
    ExecSingle(t2, e[2]);
    assert ModelUniform != LightSpaceUniform;
  }

  /** Objects own pairwise distinct vertex arrays. */
  predicate DistinctHandles(objects: map<string, Object>)
  {
    forall a, b :: a in objects && b in objects && a != b ==> objects[a].vao != objects[b].vao
  }

  /** How many of the draws used vertex array vao. */
  function DrawsOf(draws: seq<DrawEvent>, vao: nat): nat
  {
    Count(draws, (d: DrawEvent) => d.vao == vao)
  }

  /** With distinct handles, an entry is drawn as often as the visiting order names it. */
  lemma {:induction false} DrawsOfExpected(objects: map<string, Object>, order: seq<string>, k: string,
                                           fbo: nat, viewport: Viewport, program: nat, ls: Option<UniformValue>)
    requires InMap(order, objects) && DistinctHandles(objects) && k in objects
    ensures DrawsOf(ExpectedDraws(objects, order, fbo, viewport, program, ls), objects[k].vao) == Occurrences(order, k)
    decreases |order|
  {
    if order != [] {
      var n := |order| - 1;
      var pre := order[..n];
      assert InMap(pre, objects);
      var d := ExpectedDraws(objects, order, fbo, viewport, program, ls);
      assert d[..n] == ExpectedDraws(objects, pre, fbo, viewport, program, ls);
      DrawsOfExpected(objects, pre, k, fbo, viewport, program, ls);
    }
  }

  /**
   * render draws every entry exactly once: for each name, exactly one draw
   * uses its vertex array, and there is one draw per entry in all.
   */
  lemma RenderDrawsEachEntryOnce(s: GlState, objects: map<string, Object>, order: seq<string>, program: nat, k: string)
    requires s.program == program
    requires IsEnumeration(order, objects.Keys) && DistinctHandles(objects) && k in objects
    ensures |Exec(s, DrawAll(objects, order, program)).draws| == |objects|
    ensures DrawsOf(Exec(s, DrawAll(objects, order, program)).draws, objects[k].vao) == 1
  {
    assert InMap(order, objects);
    DrawAllRun(s, objects, order, program);
    EnumerationSize(order, objects.Keys);
    DrawsOfExpected(objects, order, k, s.fbo, s.viewport, program, Uniform(s, program, LightSpaceUniform));
    EnumerationOccurrences(order, objects.Keys, k);
  }

  /** deleteObject on one entry: release its vertex array and buffers. */
  function DeleteCommand(o: Object): Command
  {
    DeleteObject(o.vao, o.vbo, o.ibo)
  }

  /** What clear issues when it visits the entries in the given order. */
  function ClearCommands(objects: map<string, Object>, order: seq<string>): seq<Command>
    requires InMap(order, objects)
    decreases |order|
  {
    if order == [] then []
    else ClearCommands(objects, order[..|order| - 1]) + [DeleteCommand(objects[order[|order| - 1]])]
  }

  /** How many commands release the object whose vertex array is vao. */
  function DeletionsOf(cmds: seq<Command>, vao: nat): nat
  {
    Count(cmds, (c: Command) => c.DeleteObject? && c.vao == vao)
  }

  lemma {:induction false} ClearDeletions(objects: map<string, Object>, order: seq<string>, k: string)
    requires InMap(order, objects) && DistinctHandles(objects) && k in objects
    ensures DeletionsOf(ClearCommands(objects, order), objects[k].vao) == Occurrences(order, k)
    decreases |order|
  {
    if order != [] {
      var n := |order| - 1;
      var pre := order[..n];
      assert InMap(pre, objects);
      ClearDeletions(objects, pre, k);
      var c := ClearCommands(objects, order);
      assert c[..|c| - 1] == ClearCommands(objects, pre);
    }
  }

  /** clear releases every entry exactly once, and issues nothing but releases. */
  lemma ClearDeletesEachEntryOnce(objects: map<string, Object>, order: seq<string>, k: string)
    requires IsEnumeration(order, objects.Keys) && DistinctHandles(objects) && k in objects
    ensures |ClearCommands(objects, order)| == |objects|
    ensures forall i :: 0 <= i < |ClearCommands(objects, order)| ==> ClearCommands(objects, order)[i].DeleteObject?
    ensures DeletionsOf(ClearCommands(objects, order), objects[k].vao) == 1
  {
    assert InMap(order, objects);
    ClearLength(objects, order);
    EnumerationSize(order, objects.Keys);
    ClearDeletions(objects, order, k);
    EnumerationOccurrences(order, objects.Keys, k);
  }

  lemma {:induction false} ClearLength(objects: map<string, Object>, order: seq<string>)
    requires InMap(order, objects)
    ensures |ClearCommands(objects, order)| == |order|
    ensures forall i :: 0 <= i < |order| ==> ClearCommands(objects, order)[i].DeleteObject?
    decreases |order|
  {
    if order != [] {
      assert InMap(order[..|order| - 1], objects);
      ClearLength(objects, order[..|order| - 1]);
    }
  }

  /**
   * clear is not idempotent: it keeps the entries, so clearing twice releases
   * each entry's GPU objects twice.
   */
  lemma ClearTwiceDeletesTwice(objects: map<string, Object>, first: seq<string>, second: seq<string>, k: string)
    requires IsEnumeration(first, objects.Keys) && IsEnumeration(second, objects.Keys)
    requires DistinctHandles(objects) && k in objects
    ensures DeletionsOf(ClearCommands(objects, first) + ClearCommands(objects, second), objects[k].vao) == 2
  {
    CountAppend(ClearCommands(objects, first), ClearCommands(objects, second),
                (c: Command) => c.DeleteObject? && c.vao == objects[k].vao);
    ClearDeletesEachEntryOnce(objects, first, k);
    ClearDeletesEachEntryOnce(objects, second, k);
  }

  /**
   * With clear followed by emptying the map, a second clear finds nothing:
   * every entry's GPU objects are released once however often clear runs.
   */
  lemma ClearEmptiedTwiceDeletesOnce(objects: map<string, Object>, first: seq<string>, second: seq<string>, k: string)
    requires IsEnumeration(first, objects.Keys) && IsEnumeration(second, {})
    requires DistinctHandles(objects) && k in objects
    ensures second == [] && ClearCommands(map[], second) == []
    ensures DeletionsOf(ClearCommands(objects, first) + ClearCommands(map[], second), objects[k].vao) == 1
  {
    EnumerationSize(second, {});
    assert ClearCommands(objects, first) + [] == ClearCommands(objects, first);
    ClearDeletesEachEntryOnce(objects, first, k);
  }

  class Scene {
    var objects: map<string, Object>

    constructor ()
      ensures objects == map[]
    {
      objects := map[];
    }

    /** addObj: the first object registered under a name stays; later ones are dropped. */
    method AddObj(name: string, obj: Object)
      modifies this
      ensures objects == Insert(old(objects), name, obj)
    {
      if name !in objects {
        objects := objects[name := obj];
      }
    }

    /** objects[name].worldPos = p, where operator[] first inserts a default Object if name is absent. */
    method SetWorldPos(name: string, p: Vec3)
      modifies this
      ensures var o := if name in old(objects) then old(objects)[name] else DefaultObject();
        objects == old(objects)[name := o.(worldPos := p)]
    {
      var o := if name in objects then objects[name] else DefaultObject();
      objects := objects[name := o.(worldPos := p)];
    }

    /** objects[name].scale = s, where operator[] first inserts a default Object if name is absent. */
    method SetScale(name: string, s: Vec3)
      modifies this
      ensures var o := if name in old(objects) then old(objects)[name] else DefaultObject();
        objects == old(objects)[name := o.(scale := s)]
    {
      var o := if name in objects then objects[name] else DefaultObject();
      objects := objects[name := o.(scale := s)];
    }

    /** The body of render's loop for one entry: obj.bind(), shader.setValue("model", ...), glDrawElements. */
    static method DrawEntry(gl: GlContext, obj: Object, program: nat)
      requires gl.Valid()
      modifies gl
      ensures gl.Valid() && gl.start == old(gl.start) && gl.nextName == old(gl.nextName)
      ensures gl.trace == old(gl.trace) + EntryCommands(obj, program)
    {
      gl.Issue(BindVertexArray(obj.vao));
      gl.Issue(SetUniform(program, ModelUniform, MatValue(GetModel(obj))));
      gl.Issue(DrawElements(obj.count));
    }

    /** render: visits every entry once, in some order, issuing EntryCommands for each. */
    method Render(gl: GlContext, program: nat) returns (order: seq<string>)
      requires gl.Valid()
      modifies gl
      ensures gl.Valid() && gl.start == old(gl.start) && gl.nextName == old(gl.nextName)
      ensures IsEnumeration(order, objects.Keys)
      ensures gl.trace == old(gl.trace) + DrawAll(objects, order, program)
      ensures gl.state == Exec(old(gl.state), DrawAll(objects, order, program)).final
    {
      order := [];
      var remaining := objects.Keys;
      while remaining != {}
        invariant gl.Valid() && gl.start == old(gl.start) && gl.nextName == old(gl.nextName)
        invariant forall i, j :: 0 <= i < j < |order| ==> order[i] != order[j]
        invariant forall k :: k in order <==> k in objects.Keys - remaining
        invariant remaining <= objects.Keys
        invariant InMap(order, objects)
        invariant gl.trace == old(gl.trace) + DrawAll(objects, order, program)
        decreases remaining
      {
        var name :| name in remaining;
        assert name !in order;
        ghost var before := gl.trace;
        DrawEntry(gl, objects[name], program);
        var next := order + [name];
        assert next[..|next| - 1] == order;
        assert InMap(next, objects);
        calc {
          gl.trace;
          before + EntryCommands(objects[name], program);
          old(gl.trace) + (DrawAll(objects, order, program) + EntryCommands(objects[name], program));
          old(gl.trace) + DrawAll(objects, next, program);
        }
        order := next;
        remaining := remaining - {name};
      }
      ExecAppend(gl.start, old(gl.trace), DrawAll(objects, order, program));
    }

    /** clear: releases every entry once, in some order; the map itself is left as it was. */
    method Clear(gl: GlContext) returns (order: seq<string>)
      requires gl.Valid()
      modifies gl
      ensures gl.Valid() && gl.start == old(gl.start) && gl.nextName == old(gl.nextName)
      ensures IsEnumeration(order, objects.Keys)
      ensures gl.trace == old(gl.trace) + ClearCommands(objects, order)
      ensures gl.state == Exec(old(gl.state), ClearCommands(objects, order)).final
    {
      order := [];
      var remaining := objects.Keys;
      while remaining != {}
        invariant gl.Valid() && gl.start == old(gl.start) && gl.nextName == old(gl.nextName)
        invariant forall i, j :: 0 <= i < j < |order| ==> order[i] != order[j]
        invariant forall k :: k in order <==> k in objects.Keys - remaining
        invariant remaining <= objects.Keys
        invariant InMap(order, objects)
        invariant gl.trace == old(gl.trace) + ClearCommands(objects, order)
        decreases remaining
      {
        var name :| name in remaining;
        assert name !in order;
        ghost var before := gl.trace;
        gl.Issue(DeleteCommand(objects[name]));
        var next := order + [name];
        assert next[..|next| - 1] == order;
        assert InMap(next, objects);
        calc {
          gl.trace;
          before + [DeleteCommand(objects[name])];
          old(gl.trace) + (ClearCommands(objects, order) + [DeleteCommand(objects[name])]);
          old(gl.trace) + ClearCommands(objects, next);
        }
        order := next;
        remaining := remaining - {name};
      }
      ExecAppend(gl.start, old(gl.trace), ClearCommands(objects, order));
    }

    /** clear as the registry intends it: release every entry once, then drop all entries. */
    method ClearAndEmpty(gl: GlContext) returns (order: seq<string>)
      requires gl.Valid()
      modifies gl, this
      ensures gl.Valid() && gl.start == old(gl.start) && gl.nextName == old(gl.nextName)
      ensures IsEnumeration(order, old(objects).Keys)
      ensures gl.trace == old(gl.trace) + ClearCommands(old(objects), order)
      ensures objects == map[]
    {
      order := Clear(gl);
      objects := map[];
    }
  }
}
