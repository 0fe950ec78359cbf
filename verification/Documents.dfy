/** Structured documents: a TOML item or a JSON value, generic in what its strings hold.
    A JSON array is a `List`, a JSON object a `Table`. */
module Documents {
  import opened Wrappers

  datatype Doc<T> =
    | Text(text: T)
    | Number(number: int)
    | Flag(flag: bool)
    | List(items: seq<Doc<T>>)
    | Inline(inner: map<string, Doc<T>>)
    | Table(fields: map<string, Doc<T>>)
    | Tables(rows: seq<Doc<T>>)

  /** One step into a document. */
  datatype Step = Index(index: nat) | Key(key: string)

  /** Applies a function to every string of the document and nothing else. */
  function MapTexts<T, U>(doc: Doc<T>, f: T -> U): Doc<U> {
    match doc
    case Text(text) => Text(f(text))
    case Number(n) => Number(n)
    case Flag(b) => Flag(b)
    case List(items) => List(seq(|items|, i requires 0 <= i < |items| => MapTexts(items[i], f)))
    case Inline(inner) => Inline(map k | k in inner :: MapTexts(inner[k], f))
    case Table(fields) => Table(map k | k in fields :: MapTexts(fields[k], f))
    case Tables(rows) => Tables(seq(|rows|, i requires 0 <= i < |rows| => MapTexts(rows[i], f)))
  }

  /** The part of a document at an address, if the address exists. */
  function At<T>(doc: Doc<T>, address: seq<Step>): Option<Doc<T>> {
    if address == [] then Some(doc) else
    match (doc, address[0])
    case (List(items), Index(i)) => if i < |items| then At(items[i], address[1..]) else None
    case (Tables(rows), Index(i)) => if i < |rows| then At(rows[i], address[1..]) else None
    case (Inline(inner), Key(k)) => if k in inner then At(inner[k], address[1..]) else None
    case (Table(fields), Key(k)) => if k in fields then At(fields[k], address[1..]) else None
    case _ => None
  }

  /** Shape is kept: both documents have the same addresses, and what stands at an address is
      the mapped version of what stood there. */
  lemma {:induction false} MapTextsAt<T, U>(doc: Doc<T>, f: T -> U, address: seq<Step>)
    ensures At(MapTexts(doc, f), address) ==
            match At(doc, address) {
              case None => None
              case Some(part) => Some(MapTexts(part, f))
            }
    decreases |address|
  {
    if address != [] {
      match (doc, address[0])
      case (List(items), Index(i)) => if i < |items| { MapTextsAt(items[i], f, address[1..]); }
      case (Tables(rows), Index(i)) => if i < |rows| { MapTextsAt(rows[i], f, address[1..]); }
      case (Inline(inner), Key(k)) => if k in inner { MapTextsAt(inner[k], f, address[1..]); }
      case (Table(fields), Key(k)) => if k in fields { MapTextsAt(fields[k], f, address[1..]); }
      case _ =>
    }
  }

  /** Mapping twice is mapping once when the function itself absorbs a second application. */
  lemma {:induction false} MapTextsIdempotent<T>(doc: Doc<T>, f: T -> T)
    requires forall t :: f(f(t)) == f(t)
    ensures MapTexts(MapTexts(doc, f), f) == MapTexts(doc, f)
  {
    match doc
    case Text(text) =>
    case Number(_) =>
    case Flag(_) =>
    case List(items) => forall i | 0 <= i < |items| { MapTextsIdempotent(items[i], f); }
    case Inline(inner) => forall k | k in inner { MapTextsIdempotent(inner[k], f); }
    case Table(fields) => forall k | k in fields { MapTextsIdempotent(fields[k], f); }
    case Tables(rows) => forall i | 0 <= i < |rows| { MapTextsIdempotent(rows[i], f); }
  }

  /** Functions that agree everywhere map a document alike. */
  lemma {:induction false} MapTextsAlike<T, U>(doc: Doc<T>, f: T -> U, g: T -> U)
    requires forall t :: f(t) == g(t)
    ensures MapTexts(doc, f) == MapTexts(doc, g)
  {
    match doc
    case Text(_) =>
    case Number(_) =>
    case Flag(_) =>
    case List(items) => forall i | 0 <= i < |items| { MapTextsAlike(items[i], f, g); }
    case Inline(inner) => forall k | k in inner { MapTextsAlike(inner[k], f, g); }
    case Table(fields) => forall k | k in fields { MapTextsAlike(fields[k], f, g); }
    case Tables(rows) => forall i | 0 <= i < |rows| { MapTextsAlike(rows[i], f, g); }
  }

  /** All strings of a document. */
  function Texts<T(==)>(doc: Doc<T>): set<T> {
    match doc
    case Text(text) => {text}
    case Number(_) => {}
    case Flag(_) => {}
    case List(items) => set i, t | 0 <= i < |items| && t in Texts(items[i]) :: t
    case Inline(inner) => set k, t | k in inner && t in Texts(inner[k]) :: t
    case Table(fields) => set k, t | k in fields && t in Texts(fields[k]) :: t
    case Tables(rows) => set i, t | 0 <= i < |rows| && t in Texts(rows[i]) :: t
  }

  /** Mapping leaves a document alone if and only if it leaves each of its strings alone. */
  lemma {:induction false} MapTextsFixes<T>(doc: Doc<T>, f: T -> T)
    ensures MapTexts(doc, f) == doc <==> forall t :: t in Texts(doc) ==> f(t) == t
  {
    match doc
    case Text(text) =>
    case Number(_) =>
    case Flag(_) =>
    case List(items) =>
      forall i | 0 <= i < |items| { MapTextsFixes(items[i], f); }
      assert MapTexts(doc, f) == doc <==> forall i :: 0 <= i < |items| ==> MapTexts(items[i], f) == items[i];
    case Inline(inner) =>
      forall k | k in inner { MapTextsFixes(inner[k], f); }
      assert MapTexts(doc, f) == doc <==> forall k :: k in inner ==> MapTexts(inner[k], f) == inner[k];
    case Table(fields) =>
      forall k | k in fields { MapTextsFixes(fields[k], f); }
      assert MapTexts(doc, f) == doc <==> forall k :: k in fields ==> MapTexts(fields[k], f) == fields[k];
    case Tables(rows) =>
      forall i | 0 <= i < |rows| { MapTextsFixes(rows[i], f); }
      assert MapTexts(doc, f) == doc <==> forall i :: 0 <= i < |rows| ==> MapTexts(rows[i], f) == rows[i];
  }
}
