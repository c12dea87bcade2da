/** The values `Response.json()` produces, and the few Python operations the decoders apply to
    them: subscripting with a key or an index, `len`, iteration in a `for` loop, truth testing,
    `bool()` and `int()`. Each operation returns the exception Python raises where it raises one. */
module PyJson {
  import opened Wrappers
  import Decimal

  /** A decoded JSON document: None, bool, int, str, list and dict. */
  datatype Json =
    | Null
    | Bool(b: bool)
    | Int(i: int)
    | Str(s: string)
    | Arr(items: seq<Json>)
    | Obj(fields: map<string, Json>)

  /** Python truth testing: None, False, 0, "", [] and {} are false, everything else is true.
      This is also `bool(v)`. */
  predicate Truthy(v: Json)
  {
    match v
    case Null => false
    case Bool(b) => b
    case Int(i) => i != 0
    case Str(s) => s != ""
    case Arr(items) => items != []
    case Obj(fields) => fields != map[]
  }

  /** The six falsy values, listed. */
  lemma FalsyValues(v: Json)
    ensures !Truthy(v) <==> v in {Null, Bool(false), Int(0), Str(""), Arr([]), Obj(map[])}
  {
  }

  /** `v[key]` with a str key: a dict looks the key up (KeyError when it is missing); a list,
      a str, an int, a bool or None raise TypeError. */
  function Subscript(v: Json, key: string): (r: Result<Json>)
    ensures r.Ok? <==> v.Obj? && key in v.fields
    ensures r.Ok? ==> r.value == v.fields[key]
    ensures r.Err? ==> r.error == if v.Obj? then KeyError else TypeError
  {
    match v
    case Obj(fields) => if key in fields then Ok(fields[key]) else Err(KeyError)
    case _ => Err(TypeError)
  }

  /** `v[n]` with an int index `n >= 0`: a list gives its element and a str its one-character
      substring (IndexError past the end); a dict has only str keys, so KeyError; None, an int
      and a bool raise TypeError. */
  function Index(v: Json, n: nat): (r: Result<Json>)
    ensures v.Arr? ==> r == if n < |v.items| then Ok(v.items[n]) else Err(IndexError)
    ensures v.Obj? ==> r == Err(KeyError)
  {
    match v
    case Arr(items) => if n < |items| then Ok(items[n]) else Err(IndexError)
    case Str(s) => if n < |s| then Ok(Str([s[n]])) else Err(IndexError)
    case Obj(_) => Err(KeyError)
    case _ => Err(TypeError)
  }

  /** `len(v)`: defined on lists, strs and dicts; TypeError otherwise. */
  function Len(v: Json): (r: Result<nat>)
    ensures r.Ok? <==> v.Arr? || v.Str? || v.Obj?
  {
    match v
    case Arr(items) => Ok(|items|)
    case Str(s) => Ok(|s|)
    case Obj(fields) => Ok(|fields|)
    case _ => Err(TypeError)
  }

  /** The values a `for x in v:` loop visits: a list's elements, a str's characters as
      one-character strs; None, an int and a bool raise TypeError. A dict yields its keys, which
      are strs, and every element decoder of the wrapper raises TypeError on a str (lemma
      Entities.DecodersRejectStr), so a non-empty dict is given here as that TypeError and an
      empty one as no elements. */
  function Iterate(v: Json): (r: Result<seq<Json>>)
    ensures v.Arr? ==> r == Ok(v.items)
    ensures v.Str? ==> r.Ok? && |r.value| == |v.s| && forall i :: 0 <= i < |v.s| ==> r.value[i] == Str([v.s[i]])
    ensures v.Obj? ==> r == if v.fields == map[] then Ok([]) else Err(TypeError)
    ensures v.Null? || v.Bool? || v.Int? ==> r == Err(TypeError)
    ensures r.Ok? && !v.Obj? ==> forall i :: 0 <= i < |r.value| ==> Index(v, i) == Ok(r.value[i])
  {
    match v
    case Arr(items) => Ok(items)
    case Str(s) => Ok(seq(|s|, i requires 0 <= i < |s| => Str([s[i]])))
    case Obj(fields) => if fields == map[] then Ok([]) else Err(TypeError)
    case _ => Err(TypeError)
  }

  /** Python's `int(v)`: an int stays itself, a bool is 0 or 1, a str is parsed (ValueError when
      it is not an integer literal); None, a list and a dict raise TypeError. */
  function ToInt(v: Json): (r: Result<int>)
    ensures v.Int? ==> r == Ok(v.i)
    ensures v.Bool? ==> r == Ok(if v.b then 1 else 0)
    ensures v.Str? ==> (r.Ok? <==> Decimal.ParseInt(v.s).Some?)
    ensures v.Str? && r.Ok? ==> Decimal.ParseInt(v.s) == Some(r.value)
    ensures v.Str? && r.Err? ==> r.error == ValueError
    ensures v.Null? || v.Arr? || v.Obj? ==> r == Err(TypeError)
  {
    match v
    case Int(i) => Ok(i)
    case Bool(b) => Ok(if b then 1 else 0)
    case Str(s) =>
      (match Decimal.ParseInt(s)
       case Some(n) => Ok(n)
       case None => Err(ValueError))
    case _ => Err(TypeError)
  }

  /** `int(str(i)) == i`: the text of an int reads back as that int. */
  lemma ToIntOfText(i: int)
    ensures ToInt(Str(Decimal.IntToString(i))) == Ok(i)
  {
    Decimal.IntToStringRoundTrip(i);
  }

  /** The number `v` stands for in Python arithmetic (`+`, `<`), when it is an int or a bool. */
  function AsNumber(v: Json): (r: Option<int>)
    ensures r.Some? <==> v.Int? || v.Bool?
    ensures v.Int? ==> r == Some(v.i)
  {
    match v
    case Int(i) => Some(i)
    case Bool(b) => Some(if b then 1 else 0)
    case _ => None
  }
}
