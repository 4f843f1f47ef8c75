/** The frontend's store: a cold part set once at start-up and a hot part
    whose changes are announced to subscribers. */
module Store {
  import opened Common

  /** Store, with the topics it has published, in order, as a log. */
  class Store {
    var cold: map<string, JsValue>
    var hot: map<string, JsValue>
    var published: seq<(string, JsValue)>

    /** new Store(cold_init, hot_init): an init that is None stands for a
        falsy one, which gives an empty object. */
    constructor (coldInit: Option<map<string, JsValue>>, hotInit: Option<map<string, JsValue>>)
      ensures cold == (if coldInit.Some? then coldInit.value else map[])
      ensures hot == (if hotInit.Some? then hotInit.value else map[])
      ensures published == []
    {
      cold := if coldInit.Some? then coldInit.value else map[];
      hot := if hotInit.Some? then hotInit.value else map[];
      published := [];
    }

    /** set(key, value, silent): a key that is absent or holds a value that
        is not === the new one gets the new value, and unless silent the
        change is published; the result says whether it changed. cold is
        never touched. */
    method Set(key: string, value: JsValue, silent: bool) returns (changed: bool)
      modifies this
      ensures changed <==> key !in old(hot) || old(hot)[key] != value
      ensures hot == old(hot)[key := value]
      ensures !changed ==> hot == old(hot)
      ensures changed ==> published == old(published) + (if silent then [] else [(key, value)])
      ensures !changed ==> published == old(published)
      ensures cold == old(cold)
    {
      var hasProp := key in hot;
      if !hasProp || hot[key] != value {
        hot := hot[key := value];
        if !silent {
          published := published + [(key, value)];
        }
        return true;
      }
      return false;
    }
  }
}
