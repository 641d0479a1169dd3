/** The structured form of what `json.Marshal` produces for the hooks' payload
    and message structs: an object whose members appear in struct-field order
    under their `json` tags. The byte-level encoding is not modelled. */
module Json {
  import opened Wrappers
  import opened Bytes

  /** The kinds of field value the hooks' structs carry: Go strings, booleans,
      `[]byte` (base64 text on the wire) and `time.Time` (an instant). */
  datatype Value = Str(s: string) | Bool(b: bool) | Binary(data: seq<byte>) | Time(instant: int)

  datatype Member = Member(key: string, value: Value)

  type Object = seq<Member>

  /** The member keys in order. */
  function Keys(o: Object): seq<string>
  {
    seq(|o|, i requires 0 <= i < |o| => o[i].key)
  }

  /** The value a reader finds under `key`: the first member with that key. */
  function Get(o: Object, key: string): Option<Value>
  {
    if |o| == 0 then None
    else if o[0].key == key then Some(o[0].value)
    else Get(o[1..], key)
  }

  /** A key is read from position `i` when no earlier member has that key. */
  lemma {:induction false} GetFirst(o: Object, i: nat)
    requires i < |o|
    requires forall j :: 0 <= j < i ==> o[j].key != o[i].key
    ensures Get(o, o[i].key) == Some(o[i].value)
  {
    if i > 0 {
      assert o[0].key != o[i].key;
      assert o[1..][i - 1] == o[i];
      GetFirst(o[1..], i - 1);
    }
  }

  /** A key no member carries reads as absent. */
  lemma {:induction false} GetAbsent(o: Object, key: string)
    requires forall i :: 0 <= i < |o| ==> o[i].key != key
    ensures Get(o, key).None?
  {
    if |o| > 0 {
      assert o[0].key != key;
      GetAbsent(o[1..], key);
    }
  }

  function GetStr(o: Object, key: string): Option<string>
  {
    match Get(o, key)
    case Some(Str(s)) => Some(s)
    case _ => None
  }

  function GetBool(o: Object, key: string): Option<bool>
  {
    match Get(o, key)
    case Some(Bool(b)) => Some(b)
    case _ => None
  }

  function GetBinary(o: Object, key: string): Option<seq<byte>>
  {
    match Get(o, key)
    case Some(Binary(d)) => Some(d)
    case _ => None
  }

  function GetTime(o: Object, key: string): Option<int>
  {
    match Get(o, key)
    case Some(Time(t)) => Some(t)
    case _ => None
  }
}
