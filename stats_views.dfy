/** The statistics views of views.py: `Stats` (one of three tables chosen by
    the URL key, with its title) and `Stat` (the contents of one Redis key,
    read according to the key's Redis type). */
module StatsViews {
  import opened PyStr
  import opened PyInt

  /** `'resque:' + k`: the Redis key behind a pyres key name. */
  function RedisKey(k: string): string
  {
    "resque:" + k
  }

  /** The table a `Stats` page shows, chosen by its key. */
  datatype StatsTable = ResqueInfo | RedisInfo | KeyList | NoTable

  function TableOf(key: string): StatsTable
  {
    if key == "resque" then ResqueInfo
    else if key == "redis" then RedisInfo
    else if key == "keys" then KeyList
    else NoTable
  }

  /** `Stats.key_title`: a fixed title for the pyres and key tables, the
      server address for the Redis table, the key itself otherwise. */
  function KeyTitle(key: string, host: string, port: int): (title: string)
    ensures TableOf(key) == ResqueInfo ==> title == "Pyres"
    ensures TableOf(key) == KeyList ==> title == "Keys owned by Pyres"
    ensures TableOf(key) == RedisInfo ==> title == host + ":" + IntToString(port)
    ensures TableOf(key) == RedisInfo && ':' !in host ==> Split(title, ':') == [host, IntToString(port)]
    ensures TableOf(key) == NoTable ==> title == key
  {
    if key == "resque" then "Pyres"
    else if key == "redis" then HostPort(host, port)
    else if key == "keys" then "Keys owned by Pyres"
    else key
  }

  /** One row of a `Stats` table: an info entry, or a pyres key with its Redis type and size. */
  datatype StatRow = InfoRow(key: string, value: string) | KeyRow(key: string, keyType: string, size: int)

  /** `Stats.stats`. The server's answers are parameters: the pyres and Redis
      info dicts as their items, the pyres key names, the Redis type of a
      key, and `redis_size` of a key name. */
  function StatsRows(
    key: string, resqueInfo: seq<(string, string)>, redisInfo: seq<(string, string)>,
    keys: seq<string>, typeOf: string -> string, sizeOf: string -> int): (rows: seq<StatRow>)
    ensures TableOf(key) == ResqueInfo ==> (
      && |rows| == |resqueInfo|
      && forall i :: 0 <= i < |rows| ==> rows[i] == InfoRow(resqueInfo[i].0, resqueInfo[i].1))
    ensures TableOf(key) == RedisInfo ==> (
      && |rows| == |redisInfo|
      && forall i :: 0 <= i < |rows| ==> rows[i] == InfoRow(redisInfo[i].0, redisInfo[i].1))
    ensures TableOf(key) == KeyList ==> (
      && |rows| == |keys|
      && forall i :: 0 <= i < |rows| ==> rows[i] == KeyRow(keys[i], typeOf(RedisKey(keys[i])), sizeOf(keys[i])))
    ensures TableOf(key) == NoTable ==> rows == []
  {
    match TableOf(key)
    case ResqueInfo => seq(|resqueInfo|, i requires 0 <= i < |resqueInfo| => InfoRow(resqueInfo[i].0, resqueInfo[i].1))
    case RedisInfo => seq(|redisInfo|, i requires 0 <= i < |redisInfo| => InfoRow(redisInfo[i].0, redisInfo[i].1))
    case KeyList => seq(|keys|, i requires 0 <= i < |keys| => KeyRow(keys[i], typeOf(RedisKey(keys[i])), sizeOf(keys[i])))
    case NoTable => []
  }

  /** An unknown key shows an empty table titled with the key itself. */
  lemma UnknownKeyPage(
    key: string, host: string, port: int, resqueInfo: seq<(string, string)>, redisInfo: seq<(string, string)>,
    keys: seq<string>, typeOf: string -> string, sizeOf: string -> int)
    requires key != "resque" && key != "redis" && key != "keys"
    ensures KeyTitle(key, host, port) == key
    ensures StatsRows(key, resqueInfo, redisInfo, keys, typeOf, sizeOf) == []
  {
  }

  /** The value stored at a Redis key, by its type. */
  datatype RedisValue =
    | RString(text: string) | RList(items: seq<string>) | RSet(members: set<string>)
    | RSortedSet | RHash | Missing

  /** What Redis `TYPE` answers for a key holding `v`. */
  function TypeName(v: RedisValue): (name: string)
    ensures (name == "string") == v.RString?
    ensures (name == "list") == v.RList?
    ensures (name == "set") == v.RSet?
    ensures name in {"string", "list", "set", "zset", "hash", "none"}
  {
    match v
    case RString(_) => "string"
    case RList(_) => "list"
    case RSet(_) => "set"
    case RSortedSet => "zset"
    case RHash => "hash"
    case Missing => "none"
  }

  /** Redis `LRANGE key start stop` for non-negative bounds: the items from
      `start` to `stop`, both included, as far as the list goes. */
  function LRange(items: seq<string>, start: nat, stop: nat): (r: seq<string>)
    ensures start < |items| && stop < |items| && start <= stop ==> |r| == stop - start + 1
    ensures forall i :: 0 <= i < |r| ==> start + i < |items| && r[i] == items[start + i]
    ensures |r| <= |items|
    ensures stop < start ==> r == []
    ensures start <= stop && start < |items| ==>
      |r| == (if stop < |items| then stop else |items| - 1) - start + 1
  {
    if start >= |items| || stop < start then []
    else if stop < |items| then items[start..stop + 1]
    else items[start..]
  }

  /** What `Stat.stat_items` shows: a list of items, or the members of a set. */
  datatype StatItems = ItemList(items: seq<string>) | ItemSet(members: set<string>)

  /** `Stat.stat_items`: the first 21 items of a list (`LRANGE 0 20`), the
      members of a set (an empty list when there are none), the value of a
      string; nothing for any other type. */
  function StatItemsOf(v: RedisValue): (r: StatItems)
    ensures v.RList? ==> (
      && r.ItemList?
      && |r.items| == (if |v.items| < 21 then |v.items| else 21)
      && r.items == v.items[..|r.items|])
    ensures v.RSet? ==> if v.members == {} then r == ItemList([]) else r == ItemSet(v.members)
    ensures v.RString? ==> r == ItemList([v.text])
    ensures !(v.RList? || v.RSet? || v.RString?) ==> r == ItemList([])
  {
    var kt := TypeName(v);
    if kt == "list" then ItemList(LRange(v.items, 0, 20))
    else if kt == "set" then (if v.members == {} then ItemList([]) else ItemSet(v.members))
    else if kt == "string" then ItemList([v.text])
    else ItemList([])
  }
}
