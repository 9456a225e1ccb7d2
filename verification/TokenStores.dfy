/** Which token store an API object, and the clients it makes, present from. */
module TokenStores {
  /** The process's own ring, or the n-th private store. */
  datatype StoreId = Ambient | Private(n: nat)

  /** A LogosAPI or a LogosAPIClient: the name it speaks under and the store it captured. */
  datatype Speaker = Speaker(name: string, store: StoreId)

  /** TokenManager's bookkeeping, assumed: a name's store is private once isolated, and a
      name cannot be isolated after the ring was handed out under it. */
  class TokenManager {
    var isolated: map<string, StoreId>
    var vended: set<string>

    ghost predicate Valid()
      reads this
    {
      && isolated.Keys !! vended
      && (forall n :: n in isolated ==> isolated[n].Private? && isolated[n].n < |isolated|)
      && (forall n, m :: n in isolated && m in isolated && isolated[n] == isolated[m] ==> n == m)
    }

    /** The one store a name may be given. */
    function StoreOf(name: string): StoreId
      reads this
    {
      if name in isolated then isolated[name] else Ambient
    }

    constructor ()
      ensures Valid() && isolated == map[] && vended == {}
    {
      isolated, vended := map[], {};
    }

    method ForIdentity(name: string) returns (store: StoreId)
      requires Valid()
      modifies this`vended
      ensures Valid() && store == StoreOf(name)
      ensures vended == if name in isolated then old(vended) else old(vended) + {name}
    {
      if name in isolated {
        return isolated[name];
      }
      vended := vended + {name};
      return Ambient;
    }

    method IsolateIdentity(name: string) returns (ok: bool)
      requires Valid()
      modifies this`isolated
      ensures Valid() && (ok <==> name !in vended)
      ensures ok <==> name in isolated
      ensures isolated == if name in old(isolated) || !ok then old(isolated)
                          else old(isolated)[name := Private(|old(isolated)|)]
    {
      if name in isolated {
        return true;
      }
      if name in vended {
        return false;
      }
      isolated := isolated[name := Private(|isolated|)];
      return true;
    }
  }

  datatype Call =
    | Construct(name: string)               // a LogosAPI with no explicit store
    | ForIdentity(identity: string)
    | GetClient(api: nat)                   // on an API object made earlier

  /** All API objects and clients of a process. */
  class Process {
    const tokens: TokenManager
    var apis: seq<Speaker>
    var clients: seq<Speaker>

    ghost predicate Valid()
      reads this, tokens
    {
      && tokens.Valid()
      && (forall s :: s in apis || s in clients ==> s.store == tokens.StoreOf(s.name))
      && (forall s :: s in clients ==> s in apis)
      && (forall n :: n in tokens.vended <==> Speaker(n, Ambient) in apis)
    }

    constructor ()
      ensures Valid() && fresh(tokens) && apis == [] && clients == [] && tokens.isolated == map[]
    {
      tokens := new TokenManager();
      apis, clients := [], [];
    }

    /** The constructors that leave the store null. */
    method Construct(name: string)
      requires Valid()
      modifies this`apis, tokens`vended
      ensures Valid() && apis == old(apis) + [Speaker(name, tokens.StoreOf(name))]
    {
      var store := tokens.ForIdentity(name);
      apis := apis + [Speaker(name, store)];
      assert apis[|apis| - 1] == Speaker(name, store);
      assert forall s :: s in apis <==> s in old(apis) || s == Speaker(name, store);
    }

    /** LogosAPI::forIdentity: null for the empty name, and exactly when an API object under
        this name already presents from the ring. */
    method ForIdentity(identity: string) returns (ok: bool)
      requires Valid()
      modifies this`apis, tokens`vended, tokens`isolated
      ensures Valid() && tokens.vended == old(tokens.vended)
      ensures ok <==> identity != "" && Speaker(identity, Ambient) !in old(apis)
      ensures ok ==> identity in tokens.isolated && apis == old(apis) + [Speaker(identity, tokens.isolated[identity])]
      ensures !ok ==> apis == old(apis) && tokens.isolated == old(tokens.isolated)
    {
      if identity == "" {
        return false;
      }
      var isolated := tokens.IsolateIdentity(identity);
      if !isolated {
        return false;
      }
      var store := tokens.ForIdentity(identity);
      apis := apis + [Speaker(identity, store)];
      assert apis[|apis| - 1] == Speaker(identity, store);
      assert forall s :: s in apis <==> s in old(apis) || s == Speaker(identity, store);
      return true;
    }

    /** A client captures its API object's store. */
    method GetClient(api: nat)
      requires Valid() && api < |apis|
      modifies this`clients
      ensures Valid() && clients == old(clients) + [apis[api]]
    {
      clients := clients + [apis[api]];
      assert forall s :: s in clients <==> s in old(clients) || s == apis[api];
    }

    /** Any life of a process: everything under one name holds one store; a private store
        belongs to one name; and which store a name has never changes once it is used. */
    method Run(calls: seq<Call>)
      requires Valid()
      modifies this`apis, this`clients, tokens`vended, tokens`isolated
      ensures Valid() && old(apis) <= apis && old(clients) <= clients
      ensures forall s, t :: s in apis + clients && t in apis + clients && s.name == t.name ==> s.store == t.store
      ensures forall s, t :: s in apis + clients && t in apis + clients && s.store == t.store != Ambient ==>
                s.name == t.name
    {
      var i := 0;
      while i < |calls|
        invariant 0 <= i <= |calls| && Valid() && old(apis) <= apis && old(clients) <= clients
      {
        match calls[i] {
          case Construct(name) => Construct(name);
          case ForIdentity(identity) => var _ := ForIdentity(identity);
          case GetClient(api) =>
            if api < |apis| {
              GetClient(api);
            }
        }
        i := i + 1;
      }
    }
  }
}
