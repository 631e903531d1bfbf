/**
  The model registry of biz/domain/model/model.go: a process-wide map from a model name to the
  constructor that builds a chat model for a user and a completion request. Registration writes
  (and overwrites) one entry; `GetModel` calls the constructor registered under the request's
  model name.
 */
module Registry {

  /** The completion request, reduced to what dispatch reads (`Model`) and one carried field. */
  datatype CompletionsReq = CompletionsReq(model: string, conversationId: string)

  /**
    The `models` map. `M` is what a constructor builds; the context argument of the source's
    constructors carries nothing the registry looks at and is left out.
   */
  class ModelRegistry<M> {
    var models: map<string, (string, CompletionsReq) -> M>

    /** The map starts empty (`map[string]getModelFunc{}`). */
    constructor ()
      ensures models == map[]
    {
      models := map[];
    }

    /** `RegisterModel`: `name` now maps to `f`, replacing any earlier entry; the rest is kept. */
    method RegisterModel(name: string, f: (string, CompletionsReq) -> M)
      modifies this
      ensures models == old(models)[name := f]
      ensures name in models && models[name] == f
      ensures models.Keys == old(models).Keys + {name}
      ensures forall n :: n in old(models) && n != name ==> models[n] == old(models)[n]
    {
      models := models[name := f];
    }

    /**
      `GetModel`: the constructor stored under the request's model, applied to the same user and
      request. The source indexes the map without a presence check (a missing name yields a nil
      function that panics when called), so the name must be registered.
     */
    method GetModel(uid: string, req: CompletionsReq) returns (m: M)
      requires req.model in models
      ensures m == models[req.model](uid, req)
    {
      m := models[req.model](uid, req);
    }
  }
}
