/**
  The cross-resolving middleware of src/core/middlewares.ts.

  The middleware looks the request's `resolveId` up in the kernel's
  cross-resolving table and either answers with an error, or calls the stored
  resolver with the request's `resolvePayload` and then acknowledges. The
  table is a parameter here, and the two callbacks the middleware invokes
  (`resolve` and `respond`, and never `next`) are returned as the ordered list
  of effects it performs.
*/
module Middlewares {
  import opened Wrappers

  /** The fields of a cross-resolving request the middleware reads (middlewares.ts lines 4-10). */
  datatype CrossRequest<V> = CrossRequest(resolveId: Option<string>, resolvePayload: V)

  /** A response handed to `respond`; `{}` is `RawResponse(None)`. */
  datatype RawResponse = RawResponse(error: Option<string>)

  /** An entry of the cross-resolving table: the resolver of a pending cross request. */
  datatype ResolvingContext<R> = ResolvingContext(resolve: R)

  /** One callback invocation made by a middleware, in order. */
  datatype Effect<R, V> =
    | Resolve(resolver: R, value: V)   // resolve(value)
    | Respond(response: RawResponse)   // respond(response)
    | Next                             // next(...)

  const NotFoundMessage: string := "Can not find context for cross-resolving"

  /**
    The property name a JavaScript object lookup uses for `resolveId`: an
    absent id is coerced to the string "undefined".
  */
  function PropertyKey(id: Option<string>): (key: string)
    ensures id.Some? ==> key == id.value
  {
    if id.Some? then id.value else "undefined"
  }

  /** The responses passed to `respond`, in order. */
  function Responses<R, V>(effects: seq<Effect<R, V>>): (rs: seq<RawResponse>)
    ensures |rs| <= |effects|
  {
    if effects == [] then []
    else
      var rest := Responses(effects[1..]);
      if effects[0].Respond? then [effects[0].response] + rest else rest
  }

  /** The (resolver, value) pairs passed to resolvers, in order. */
  function Resolutions<R, V>(effects: seq<Effect<R, V>>): (rs: seq<(R, V)>)
    ensures |rs| <= |effects|
  {
    if effects == [] then []
    else
      var rest := Resolutions(effects[1..]);
      if effects[0].Resolve? then [(effects[0].resolver, effects[0].value)] + rest else rest
  }

  /** `handleCrossResolving(kernel)` applied to a request (middlewares.ts lines 18-27). */
  function HandleCrossResolving<R, V>(table: map<string, ResolvingContext<R>>, request: CrossRequest<V>): (effects: seq<Effect<R, V>>)
    ensures |effects| > 0 && effects[|effects| - 1].Respond?
    ensures forall i :: 0 <= i < |effects| ==> !effects[i].Next?
  {
    var key := PropertyKey(request.resolveId);
    if key !in table then [Respond(RawResponse(Some(NotFoundMessage)))]
    else [Resolve(table[key].resolve, request.resolvePayload), Respond(RawResponse(None))]
  }

  /**
    On every path `respond` is called exactly once and last, `next` is never
    called, and the response carries an error exactly when the table has no
    entry for the request's key; in that case no resolver is called, and
    otherwise the entry's resolver is called once, with the request's
    payload, before `respond`.
  */
  lemma CrossResolvingContract<R, V>(table: map<string, ResolvingContext<R>>, request: CrossRequest<V>)
    ensures var effects := HandleCrossResolving(table, request);
            var key := PropertyKey(request.resolveId);
            && |Responses(effects)| == 1
            && effects[|effects| - 1].Respond?
            && (forall i :: 0 <= i < |effects| ==> !effects[i].Next?)
            && (Responses(effects)[0].error.Some? <==> key !in table)
            && (key !in table ==> Responses(effects)[0].error == Some(NotFoundMessage) && Resolutions(effects) == [])
            && (key in table ==> Resolutions(effects) == [(table[key].resolve, request.resolvePayload)]
                                 && effects[0].Resolve?)
  {
    var effects := HandleCrossResolving(table, request);
    if PropertyKey(request.resolveId) in table {
      assert effects[1..][1..] == [];
    } else {
      assert effects[1..] == [];
    }
  }

  /**
    A request without `resolveId` is looked up under "undefined": it is
    answered with the not-found error unless the table happens to hold an
    entry under that very name.
  */
  lemma AbsentIdLooksUpUndefined<R, V>(table: map<string, ResolvingContext<R>>, payload: V)
    requires "undefined" !in table
    ensures HandleCrossResolving(table, CrossRequest(None, payload)) == [Respond(RawResponse(Some(NotFoundMessage)))]
  {
  }

  /** The middleware reads only the table entry under the request's key: tables that agree there give the same effects. */
  lemma OnlyTheRequestedEntryMatters<R, V>(t1: map<string, ResolvingContext<R>>, t2: map<string, ResolvingContext<R>>, request: CrossRequest<V>)
    requires var key := PropertyKey(request.resolveId);
             (key in t1 <==> key in t2) && (key in t1 ==> t1[key] == t2[key])
    ensures HandleCrossResolving(t1, request) == HandleCrossResolving(t2, request)
  {
  }
}
