/**
 * How entities compose (src/entity/mod.rs). An entity has a `parse` stage, which may
 * update the entity, and a `render` stage, which reads it; `Option<T>` and `Vec<T>` lift
 * both stages of their elements with all-must-succeed semantics.
 */
module Entity {
  import opened Wrappers

  type Error = string
  type Path = string

  /** What a `parse(&mut self, source)` call leaves behind: the updated entity and the outcome. */
  datatype Parsed<T> = Parsed(entity: T, outcome: Outcome<Error>)

  /** The trait's default `parse`: succeeds and leaves the entity as it is. */
  function DefaultParse<T>(e: T, source: Path): (r: Parsed<T>)
    ensures r.outcome.Pass? && r.entity == e
  {
    Parsed(e, Pass)
  }

  /** The trait's default `render`: succeeds (and writes nothing). */
  function DefaultRender<T, Env, Ctx>(e: T, env: Env, ctx: Ctx, dest: Path): (r: Outcome<Error>)
    ensures r.Pass?
  {
    Pass
  }

  /** `Entity for Option<T>`, `parse`: `None` succeeds untouched, `Some(e)` parses `e` in place. */
  function OptionParse<T>(parse: (T, Path) -> Parsed<T>, o: Option<T>, source: Path): (r: Parsed<Option<T>>)
    ensures o.None? ==> r == Parsed(None, Pass)
    ensures o.Some? ==> r.entity == Some(parse(o.value, source).entity)
                        && r.outcome == parse(o.value, source).outcome
  {
    match o
    case None => Parsed(None, Pass)
    case Some(e) =>
      var p := parse(e, source);
      Parsed(Some(p.entity), p.outcome)
  }

  /** `Entity for Option<T>`, `render`: `None` succeeds, `Some(e)` renders exactly as `e`. */
  function OptionRender<T, Env, Ctx>(render: (T, Env, Ctx, Path) -> Outcome<Error>, o: Option<T>,
                                     env: Env, ctx: Ctx, dest: Path): (r: Outcome<Error>)
    ensures o.None? ==> r.Pass?
    ensures o.Some? ==> r == render(o.value, env, ctx, dest)
  {
    match o
    case None => Pass
    case Some(e) => render(e, env, ctx, dest)
  }

  /**
   * `Entity for Vec<T>`, `parse`: every element is parsed in place; the result is success
   * exactly when every element's parse succeeds, and otherwise the error of some element
   * that failed. This model visits the elements in order and stops at the first failure.
   */
  method VecParse<T>(items: array<T>, parse: (T, Path) -> Parsed<T>, source: Path) returns (r: Outcome<Error>)
    modifies items
    ensures r.Pass? <==> forall i :: 0 <= i < items.Length ==> parse(old(items[i]), source).outcome.Pass?
    ensures r.Pass? ==> forall i :: 0 <= i < items.Length ==> items[i] == parse(old(items[i]), source).entity
    ensures r.Fail? ==> exists i :: 0 <= i < items.Length && parse(old(items[i]), source).outcome == r
    ensures forall i :: 0 <= i < items.Length ==>
              items[i] == old(items[i]) || items[i] == parse(old(items[i]), source).entity
  {
    var k := 0;
    while k < items.Length
      invariant 0 <= k <= items.Length
      invariant forall i :: 0 <= i < k ==> parse(old(items[i]), source).outcome.Pass?
      invariant forall i :: 0 <= i < k ==> items[i] == parse(old(items[i]), source).entity
      invariant forall i :: k <= i < items.Length ==> items[i] == old(items[i])
    {
      var p := parse(items[k], source);
      items[k] := p.entity;
      if p.outcome.Fail? {
        return p.outcome;
      }
      k := k + 1;
    }
    return Pass;
  }

  /**
   * `Entity for Vec<T>`, `render`: every element is rendered with the same environment,
   * the same destination and a clone of the same context; the result is success exactly
   * when every element renders, and otherwise the error of some element that failed.
   */
  function VecRender<T, Env, Ctx>(render: (T, Env, Ctx, Path) -> Outcome<Error>, items: seq<T>,
                                  env: Env, ctx: Ctx, dest: Path): (r: Outcome<Error>)
    ensures r.Pass? <==> forall i :: 0 <= i < |items| ==> render(items[i], env, ctx, dest).Pass?
    ensures r.Fail? ==> exists i :: 0 <= i < |items| && render(items[i], env, ctx, dest) == r
  {
    if items == [] then Pass
    else
      var first := render(items[0], env, ctx, dest);
      if first.Fail? then first
      else
        var rest := VecRender(render, items[1..], env, ctx, dest);
        assert forall i :: 1 <= i < |items| ==> items[i] == items[1..][i - 1];
        rest
  }
}
