/** utils/serializers.py: turning MongoDB documents into JSON-compatible
    values by replacing every ObjectId with its string form. */
module Serializers {
  import opened Common

  /** The values a MongoDB document holds. A dictionary is its sequence of
      (key, value) entries in iteration order. */
  datatype Valor =
    | ObjectId(hex: string)
    | Texto(s: string)
    | Numero(n: int)
    | Booleano(b: bool)
    | Nulo
    | Dict(entradas: seq<(string, Valor)>)
    | Lista(items: seq<Valor>)

  type Doc = seq<(string, Valor)>

  /** The value stored under a key of a document, as `serialize_mongo_doc`
      converts it. */
  function SerializarCampo(v: Valor): Valor
    decreases v, 0
  {
    match v
    case ObjectId(h) => Texto(h)
    case Dict(es) => Dict(seq(|es|, i requires 0 <= i < |es| => (es[i].0, SerializarCampo(es[i].1))))
    case Lista(xs) => Lista(seq(|xs|, j requires 0 <= j < |xs| => SerializarElemento(xs[j])))
    case _ => v
  }

  /** An item of a list: dictionaries are serialized and ObjectIds turned into
      strings, but a nested list is kept as it is. */
  function SerializarElemento(x: Valor): Valor
    decreases x, 1
  {
    if x.Lista? then x else SerializarCampo(x)
  }

  /** `serialize_mongo_doc` on a present document. */
  function SerializarEntradas(doc: Doc): (r: Doc)
    ensures |r| == |doc| && forall i :: 0 <= i < |doc| ==> r[i].0 == doc[i].0
  {
    seq(|doc|, i requires 0 <= i < |doc| => (doc[i].0, SerializarCampo(doc[i].1)))
  }

  /** `serialize_mongo_doc`, which maps `None` to `None`: a document keeps
      its keys, and every value it holds is clean and left alone by a second
      serialization. */
  function SerializarDoc(doc: Option<Doc>): (r: Option<Doc>)
    ensures doc.None? <==> r.None?
    ensures doc.Some? ==> r == Some(SerializarEntradas(doc.value))
    ensures r.Some? ==> |r.value| == |doc.value| && forall i :: 0 <= i < |r.value| ==> r.value[i].0 == doc.value[i].0
    ensures r.Some? ==> forall i :: 0 <= i < |r.value| ==> Limpio(r.value[i].1) && SerializarCampo(r.value[i].1) == r.value[i].1
  {
    if doc.None? then None
    else
      EntradasLimpias(doc.value);
      Some(SerializarEntradas(doc.value))
  }

  lemma EntradasLimpias(doc: Doc)
    ensures var r := SerializarEntradas(doc);
            forall i :: 0 <= i < |r| ==> Limpio(r[i].1) && SerializarCampo(r[i].1) == r[i].1
  {
    var r := SerializarEntradas(doc);
    forall i | 0 <= i < |r| ensures Limpio(r[i].1) && SerializarCampo(r[i].1) == r[i].1 {
      SerializarLimpia(doc[i].1);
      LimpioFijo(r[i].1);
    }
  }

  /** `serialize_mongo_docs`: element-wise, same length, same order; a
      missing document stays missing and every present one comes out clean. */
  function SerializarDocs(docs: seq<Option<Doc>>): (r: seq<Option<Doc>>)
    ensures |r| == |docs| && forall i :: 0 <= i < |docs| ==> r[i] == SerializarDoc(docs[i])
    ensures forall i :: 0 <= i < |r| ==> (r[i].None? <==> docs[i].None?)
    ensures forall i, k :: 0 <= i < |r| && r[i].Some? && 0 <= k < |r[i].value| ==> Limpio(r[i].value[k].1)
  {
    seq(|docs|, i requires 0 <= i < |docs| => SerializarDoc(docs[i]))
  }

  /** What serialization guarantees of a stored value: no ObjectId, neither
      as the value itself nor inside dictionaries; a list has no ObjectId
      items and its dictionary items are clean, while lists nested in lists
      are not looked into. */
  predicate Limpio(v: Valor)
    decreases v, 0
  {
    match v
    case ObjectId(_) => false
    case Dict(es) => forall i :: 0 <= i < |es| ==> Limpio(es[i].1)
    case Lista(xs) => forall j :: 0 <= j < |xs| ==> ElementoLimpio(xs[j])
    case _ => true
  }

  predicate ElementoLimpio(x: Valor)
    decreases x, 1
  {
    x.Lista? || Limpio(x)
  }

  /** Every serialized value is clean. */
  lemma {:induction false} SerializarLimpia(v: Valor)
    ensures Limpio(SerializarCampo(v))
    decreases v, 0
  {
    match v
    case Dict(es) =>
      forall i | 0 <= i < |es| ensures Limpio(SerializarCampo(es[i].1)) {
        SerializarLimpia(es[i].1);
      }
    case Lista(xs) =>
      forall j | 0 <= j < |xs| ensures ElementoLimpio(SerializarElemento(xs[j])) {
        SerializarElementoLimpio(xs[j]);
      }
    case _ =>
  }

  lemma {:induction false} SerializarElementoLimpio(x: Valor)
    ensures ElementoLimpio(SerializarElemento(x))
    decreases x, 1
  {
    if !x.Lista? {
      SerializarLimpia(x);
    }
  }

  /** A clean value is left exactly as it is. */
  lemma {:induction false} LimpioFijo(v: Valor)
    requires Limpio(v)
    ensures SerializarCampo(v) == v
    decreases v, 0
  {
    match v
    case Dict(es) =>
      var r := seq(|es|, i requires 0 <= i < |es| => (es[i].0, SerializarCampo(es[i].1)));
      forall i | 0 <= i < |es| ensures r[i] == es[i] {
        LimpioFijo(es[i].1);
      }
      assert r == es;
    case Lista(xs) =>
      var r := seq(|xs|, j requires 0 <= j < |xs| => SerializarElemento(xs[j]));
      forall j | 0 <= j < |xs| ensures r[j] == xs[j] {
        ElementoLimpioFijo(xs[j]);
      }
      assert r == xs;
    case _ =>
  }

  lemma {:induction false} ElementoLimpioFijo(x: Valor)
    requires ElementoLimpio(x)
    ensures SerializarElemento(x) == x
    decreases x, 1
  {
    if !x.Lista? {
      LimpioFijo(x);
    }
  }

  /** Serializing twice is serializing once. */
  lemma SerializarIdempotente(doc: Option<Doc>)
    ensures SerializarDoc(SerializarDoc(doc)) == SerializarDoc(doc)
  {
    if doc.Some? {
      var r := SerializarEntradas(doc.value);
      var rr := SerializarEntradas(r);
      forall i | 0 <= i < |r| ensures rr[i] == r[i] {
        SerializarLimpia(doc.value[i].1);
        LimpioFijo(r[i].1);
      }
      assert rr == r;
    }
  }

  /** Where the conversion acts: an ObjectId value becomes its string, a
      nested dictionary keeps its keys, a list keeps its length, and scalar
      values are untouched. */
  lemma SerializarCampoForma(v: Valor)
    ensures v.ObjectId? ==> SerializarCampo(v) == Texto(v.hex)
    ensures v.Dict? ==> (SerializarCampo(v).Dict? && |SerializarCampo(v).entradas| == |v.entradas|
                         && forall i :: 0 <= i < |v.entradas| ==> SerializarCampo(v).entradas[i].0 == v.entradas[i].0)
    ensures v.Lista? ==> (SerializarCampo(v).Lista? && |SerializarCampo(v).items| == |v.items|
                          && forall j :: 0 <= j < |v.items| && v.items[j].Lista? ==> SerializarCampo(v).items[j] == v.items[j])
    ensures v.Texto? || v.Numero? || v.Booleano? || v.Nulo? ==> SerializarCampo(v) == v
  {
  }

  /** `serialize_mongo_doc` as written: a loop that fills `result` one key at
      a time. */
  method SerializeMongoDoc(doc: Option<Doc>) returns (r: Option<Doc>)
    ensures r == SerializarDoc(doc)
  {
    if doc.None? {
      return None;
    }
    var entradas := doc.value;
    var resultado: Doc := [];
    for i := 0 to |entradas|
      invariant resultado == SerializarEntradas(entradas[..i])
    {
      var (clave, valor) := entradas[i];
      var convertido: Valor;
      if valor.ObjectId? {
        convertido := Texto(valor.hex);
      } else if valor.Dict? {
        convertido := Dict(SerializarEntradas(valor.entradas));
      } else if valor.Lista? {
        convertido := Lista(seq(|valor.items|, j requires 0 <= j < |valor.items| => SerializarElemento(valor.items[j])));
      } else {
        convertido := valor;
      }
      assert entradas[..i + 1] == entradas[..i] + [entradas[i]];
      resultado := resultado + [(clave, convertido)];
    }
    assert entradas[..|entradas|] == entradas;
    r := Some(resultado);
  }
}
