/** Python's insertion-ordered dict with string keys, and `str` / `int` on decimal numbers. */
module Dict {
  import opened Wrappers

  /** Items in insertion order. */
  datatype Dict<V> = Nothing | Item(key: string, value: V, rest: Dict<V>)

  function Keys<V>(d: Dict<V>): set<string> {
    if d.Nothing? then {} else {d.key} + Keys(d.rest)
  }

  function Get<V>(d: Dict<V>, key: string): Option<V> {
    if d.Nothing? then None else if d.key == key then Some(d.value) else Get(d.rest, key)
  }

  /** `d[key] = value`: an existing key keeps its place, a new one goes to the end. */
  function Put<V>(d: Dict<V>, key: string, value: V): Dict<V> {
    if d.Nothing? then Item(key, value, Nothing)
    else if d.key == key then Item(key, value, d.rest)
    else Item(d.key, d.value, Put(d.rest, key, value))
  }

  /** `d.pop(key)` */
  function Pop<V>(d: Dict<V>, key: string): Dict<V> {
    if d.Nothing? then Nothing
    else if d.key == key then d.rest
    else Item(d.key, d.value, Pop(d.rest, key))
  }

  lemma {:induction false} GetKeys<V>(d: Dict<V>, key: string)
    ensures key in Keys(d) <==> Get(d, key).Some?
  {
    if d.Item? {
      GetKeys(d.rest, key);
    }
  }

  lemma {:induction false} PutGet<V>(d: Dict<V>, key: string, value: V, other: string)
    ensures Get(Put(d, key, value), other) == if other == key then Some(value) else Get(d, other)
    ensures Keys(Put(d, key, value)) == Keys(d) + {key}
  {
    if d.Item? {
      PutGet(d.rest, key, value, other);
    }
  }

  // ---------------------------------------------------------------------------------------------
  // Decimal numbers
  // ---------------------------------------------------------------------------------------------

  function DigitChar(d: int): (c: char)
    requires 0 <= d < 10
    ensures '0' <= c <= '9' && c as int - '0' as int == d
  {
    '0' + d as char
  }

  /** `str(n)` */
  function Str(n: nat): string {
    if n < 10 then [DigitChar(n)] else Str(n / 10) + [DigitChar(n % 10)]
  }

  predicate Digits(s: string) {
    forall i :: 0 <= i < |s| ==> '0' <= s[i] <= '9'
  }

  function Value(s: string): nat
    requires Digits(s)
  {
    if s == "" then 0
    else Value(s[..|s| - 1]) * 10 + (s[|s| - 1] as int - '0' as int)
  }

  /** `int(s)` on strings of digits, leading zeros included; other strings are not numbers here. */
  function Int(s: string): Option<nat> {
    if s != "" && Digits(s) then Some(Value(s)) else None
  }

  lemma {:induction false} IntOfStr(n: nat)
    ensures Int(Str(n)) == Some(n)
  {
    var s := Str(n);
    if n >= 10 {
      IntOfStr(n / 10);
      assert s[..|s| - 1] == Str(n / 10);
    } else {
      assert s[..0] == "" && Value("") == 0;
      assert Value(s) == s[0] as int - '0' as int;
    }
  }

  /** `str(int(s)) == s` fails for a leading zero. */
  lemma LeadingZero()
    ensures Int("05") == Some(5) && Str(5) == "5" != "05"
    ensures Str(12) == "12"
  {
    assert Str(1) == "1" && Str(2) == "2";
    assert "05"[..1] == "0" && "0"[..0] == "";
    assert Value("0") == 0;
  }
}
