/**
 * The listing ("gado") routes: the placeholder photo every listing path
 * applies, the search that sends one term either to a price ceiling or to a
 * text match on type and breed name, and the create / update / delete / fetch
 * handlers over the listing table.
 */
module Gados {
  import opened Wrappers
  import opened Text
  import opened Http

  const FotoPadrao := "/default-image.jpg"

  datatype Gado = Gado(
    id: int,
    tipo: string,
    idade: int,
    preco: int,
    peso: int,
    informacoes: string,
    destaque: Option<bool>,
    foto: Option<string>,
    sexo: string,
    racasId: int,
    adminId: string)

  // ----------------------------------------------------------- photo default

  /** A photo reference is usable when it is present and not empty. */
  predicate TemFoto(g: Gado) {
    g.foto.Some? && g.foto.value != ""
  }

  /** `{ ...gado, foto: gado.foto || "/default-image.jpg" }`. */
  function ComFotoPadrao(g: Gado): (r: Gado)
    ensures TemFoto(r)
    ensures TemFoto(g) ==> r == g
    ensures !TemFoto(g) ==> r == g.(foto := Some(FotoPadrao))
  {
    g.(foto := Some(if TemFoto(g) then g.foto.value else FotoPadrao))
  }

  /** `gados.map(...)` with the placeholder photo. */
  function AplicaFotoPadrao(gs: seq<Gado>): (r: seq<Gado>)
    ensures |r| == |gs|
    ensures forall i :: 0 <= i < |gs| ==> r[i] == ComFotoPadrao(gs[i])
    ensures forall g :: g in r ==> TemFoto(g)
  {
    seq(|gs|, i requires 0 <= i < |gs| => ComFotoPadrao(gs[i]))
  }

  /**
   * After defaulting no listing lacks a photo, every other field is as it
   * was, and length and order are kept.
   */
  lemma AplicaFotoPadraoPreserva(gs: seq<Gado>)
    ensures |AplicaFotoPadrao(gs)| == |gs|
    ensures forall g :: g in AplicaFotoPadrao(gs) ==> TemFoto(g)
    ensures forall i :: 0 <= i < |gs| ==> AplicaFotoPadrao(gs)[i].(foto := gs[i].foto) == gs[i]
    ensures forall i :: 0 <= i < |gs| && TemFoto(gs[i]) ==> AplicaFotoPadrao(gs)[i] == gs[i]
  {
  }

  /** Defaulting a defaulted list changes nothing. */
  lemma AplicaFotoPadraoIdempotente(gs: seq<Gado>)
    ensures AplicaFotoPadrao(AplicaFotoPadrao(gs)) == AplicaFotoPadrao(gs)
  {
  }

  /** Defaulting distributes over concatenation, so it never reorders. */
  lemma AplicaFotoPadraoConcat(a: seq<Gado>, b: seq<Gado>)
    ensures AplicaFotoPadrao(a + b) == AplicaFotoPadrao(a) + AplicaFotoPadrao(b)
  {
  }

  // ------------------------------------------------------------ number parse

  function DigitValue(c: char): (v: nat)
    requires IsDigit(c)
    ensures v < 10
  {
    c as int - '0' as int
  }

  /** The value of a string of decimal digits. */
  function DecimalValue(s: string): nat
    requires AllDigits(s)
  {
    if s == [] then 0 else DecimalValue(s[..|s| - 1]) * 10 + DigitValue(s[|s| - 1])
  }

  /**
   * `Number(termo)` on the forms the model covers: an optional sign followed
   * by decimal digits, and the empty string, which JavaScript reads as 0.
   * Everything else is `NaN`, here `None`.
   */
  function ParseNumber(s: string): (r: Option<int>)
    ensures r.Some? ==> forall i :: 0 < i < |s| ==> IsDigit(s[i])
    ensures r.Some? && (s == "" || s[0] != '-') ==> r.value >= 0
    ensures s != "" && AllDigits(s) ==> r == Some(DecimalValue(s))
  {
    if s == "" then Some(0)
    else if s[0] == '-' || s[0] == '+' then
      if |s| > 1 && AllDigits(s[1..]) then
        var v: int := DecimalValue(s[1..]);
        Some(if s[0] == '-' then -v else v)
      else None
    else if AllDigits(s) then Some(DecimalValue(s))
    else None
  }

  function DigitChar(d: nat): (c: char)
    requires d < 10
    ensures IsDigit(c) && DigitValue(c) == d
  {
    ('0' as int + d) as char
  }

  /** The decimal rendering of a natural number, without leading zeros. */
  function Decimal(n: nat): (s: string)
    ensures s != [] && AllDigits(s)
    decreases n
  {
    if n < 10 then [DigitChar(n)] else Decimal(n / 10) + [DigitChar(n % 10)]
  }

  lemma {:induction false} DecimalValueOfDecimal(n: nat)
    ensures DecimalValue(Decimal(n)) == n
    decreases n
  {
    if n >= 10 {
      var s := Decimal(n);
      assert s[..|s| - 1] == Decimal(n / 10);
      DecimalValueOfDecimal(n / 10);
    }
  }

  /** Every price written in decimal is read back as that number. */
  lemma ParseNumberOfDecimal(n: nat)
    ensures ParseNumber(Decimal(n)) == Some(n)
    ensures ParseNumber("-" + Decimal(n)) == Some(-(n as int))
  {
    DecimalValueOfDecimal(n);
    assert ("-" + Decimal(n))[1..] == Decimal(n);
  }

  /** A term holding a character that is neither a digit nor a sign is `NaN`. */
  lemma ParseNumberRejectsText(s: string, i: nat)
    requires i < |s| && !IsDigit(s[i]) && s[i] != '-' && s[i] != '+'
    ensures ParseNumber(s) == None
  {
    if s[0] == '-' || s[0] == '+' {
      assert i > 0 && s[1..][i - 1] == s[i];
    }
  }

  // ------------------------------------------------------------------ search

  /** The two shapes a search can take. */
  datatype Consulta = PorTexto(texto: string) | PorPreco(teto: int)

  /**
   * The dispatch of GET `/pesquisa/:termo`: the text branch exactly when
   * `Number(termo)` is `NaN`, with the term lower-cased; the price branch
   * otherwise, with the parsed number as ceiling.
   */
  function Classifica(termo: string): (c: Consulta)
    ensures c.PorTexto? <==> ParseNumber(termo) == None
    ensures c.PorTexto? ==> c.texto == Lower(termo)
    ensures c.PorPreco? ==> ParseNumber(termo) == Some(c.teto)
  {
    match ParseNumber(termo)
    case None => PorTexto(Lower(termo))
    case Some(n) => PorPreco(n)
  }

  /**
   * The `where` clause of each branch. `racas` maps a breed id to the breed's
   * name; only the term was lower-cased, the stored fields are compared as
   * they are.
   */
  function Corresponde(g: Gado, c: Consulta, racas: map<int, string>): (b: bool)
    ensures c.PorPreco? && b ==> g.preco <= c.teto
    ensures c.PorTexto? && (c.texto <= g.tipo || c.texto == []) ==> b
    ensures c.PorTexto? && g.racasId in racas && c.texto <= racas[g.racasId] ==> b
    ensures c.PorTexto? && b ==> |c.texto| <= |g.tipo| || (g.racasId in racas && |c.texto| <= |racas[g.racasId]|)
  {
    match c
    case PorPreco(teto) => g.preco <= teto
    case PorTexto(t) => Contains(g.tipo, t) || (g.racasId in racas && Contains(racas[g.racasId], t))
  }

  /** The rows `findMany` returns for a query, in table order. */
  function Filtra(gs: seq<Gado>, c: Consulta, racas: map<int, string>): (r: seq<Gado>)
    ensures |r| <= |gs|
    ensures forall g :: g in r ==> g in gs && Corresponde(g, c, racas)
  {
    if gs == [] then []
    else (if Corresponde(gs[0], c, racas) then [gs[0]] else []) + Filtra(gs[1..], c, racas)
  }

  /** Every matching row is returned. */
  lemma {:induction false} FiltraCompleto(gs: seq<Gado>, c: Consulta, racas: map<int, string>, g: Gado)
    requires g in gs && Corresponde(g, c, racas)
    ensures g in Filtra(gs, c, racas)
  {
    if gs[0] != g {
      FiltraCompleto(gs[1..], c, racas, g);
    }
  }

  /** Filtering distributes over concatenation: the table order is kept. */
  lemma {:induction false} FiltraConcat(a: seq<Gado>, b: seq<Gado>, c: Consulta, racas: map<int, string>)
    ensures Filtra(a + b, c, racas) == Filtra(a, c, racas) + Filtra(b, c, racas)
  {
    if a == [] {
      assert a + b == b;
    } else {
      assert (a + b)[1..] == a[1..] + b;
      FiltraConcat(a[1..], b, c, racas);
    }
  }

  /** GET `/pesquisa/:termo`: the query the term selects, then the placeholder photo. */
  function Pesquisa(gados: seq<Gado>, racas: map<int, string>, termo: string): (r: seq<Gado>)
    ensures forall g :: g in r ==> TemFoto(g)
  {
    AplicaFotoPadrao(Filtra(gados, Classifica(termo), racas))
  }

  /**
   * A numeric term returns, photo defaulted, exactly the listings priced at
   * or below it.
   */
  lemma PesquisaPorPreco(gados: seq<Gado>, racas: map<int, string>, termo: string, teto: int)
    requires ParseNumber(termo) == Some(teto)
    ensures forall g :: g in gados && g.preco <= teto ==> ComFotoPadrao(g) in Pesquisa(gados, racas, termo)
    ensures forall x :: x in Pesquisa(gados, racas, termo) ==>
      exists g :: g in gados && g.preco <= teto && x == ComFotoPadrao(g)
  {
    var f := Filtra(gados, PorPreco(teto), racas);
    forall g | g in gados && g.preco <= teto
      ensures ComFotoPadrao(g) in Pesquisa(gados, racas, termo)
    {
      FiltraCompleto(gados, PorPreco(teto), racas, g);
      var i :| 0 <= i < |f| && f[i] == g;
      assert Pesquisa(gados, racas, termo)[i] == ComFotoPadrao(g);
    }
    forall x | x in Pesquisa(gados, racas, termo)
      ensures exists g :: g in gados && g.preco <= teto && x == ComFotoPadrao(g)
    {
      var i :| 0 <= i < |f| && Pesquisa(gados, racas, termo)[i] == x;
      assert f[i] in f;
    }
  }

  /**
   * A non-numeric term returns, photo defaulted, exactly the listings whose
   * type or breed name contains the lower-cased term.
   */
  lemma PesquisaPorTexto(gados: seq<Gado>, racas: map<int, string>, termo: string)
    requires ParseNumber(termo) == None
    ensures forall g :: g in gados && (Contains(g.tipo, Lower(termo))
                                       || (g.racasId in racas && Contains(racas[g.racasId], Lower(termo))))
                        ==> ComFotoPadrao(g) in Pesquisa(gados, racas, termo)
    ensures forall x :: x in Pesquisa(gados, racas, termo) ==>
      exists g :: g in gados && x == ComFotoPadrao(g)
                  && (Contains(g.tipo, Lower(termo)) || (g.racasId in racas && Contains(racas[g.racasId], Lower(termo))))
  {
    var c := PorTexto(Lower(termo));
    var f := Filtra(gados, c, racas);
    forall g | g in gados && Corresponde(g, c, racas)
      ensures ComFotoPadrao(g) in Pesquisa(gados, racas, termo)
    {
      FiltraCompleto(gados, c, racas, g);
      var i :| 0 <= i < |f| && f[i] == g;
      assert Pesquisa(gados, racas, termo)[i] == ComFotoPadrao(g);
    }
    forall x | x in Pesquisa(gados, racas, termo)
      ensures exists g :: g in gados && x == ComFotoPadrao(g) && Corresponde(g, c, racas)
    {
      var i :| 0 <= i < |f| && Pesquisa(gados, racas, termo)[i] == x;
      assert f[i] in f;
    }
  }

  /** "450" is a price ceiling; "nelore" is a text search. */
  lemma ExemplosDeDespacho()
    ensures Classifica("450") == PorPreco(450)
    ensures Classifica("nelore") == PorTexto("nelore")
  {
    assert Decimal(450) == "450";
    ParseNumberOfDecimal(450);
    ParseNumberRejectsText("nelore", 0);
    assert Lower("nelore") == "nelore";
  }

  // ------------------------------------------------------------ the handlers

  /** The JSON bodies the listing routes send. */
  datatype Body =
    | Erro(erro: string)
    | Item(gado: Gado)
    | Lista(gados: seq<Gado>)
    | FalhaBanco            // the raw Prisma error object

  /** The body of POST `/`. */
  datatype NovoGado = NovoGado(
    tipo: Option<string>,
    idade: Option<int>,
    preco: Option<int>,
    peso: Option<int>,
    informacoes: Option<string>,
    destaque: Option<bool>,
    foto: Option<string>,
    sexo: Option<string>,
    racasId: Option<int>,
    adminId: Option<string>)

  /** Every field but `destaque` must pass `!campo`; a numeric 0 does not. */
  predicate Completo(n: NovoGado) {
    && Informado(n.tipo) && InformadoNum(n.idade) && InformadoNum(n.preco) && InformadoNum(n.peso)
    && Informado(n.informacoes) && Informado(n.foto) && Informado(n.sexo)
    && InformadoNum(n.racasId) && Informado(n.adminId)
  }

  const MsgCamposGado := "Informe todos os campos obrigatórios do gado."
  const MsgCamposAtualizacao := "Informe sexo e racasId"
  const MsgNaoEncontrado := "Gado não encontrado"

  /** The position of the row with id `id`, if there is one. */
  function IndexOf(gs: seq<Gado>, id: int): (k: Option<nat>)
    ensures k.Some? ==> k.value < |gs| && gs[k.value].id == id
    ensures k.None? ==> forall i :: 0 <= i < |gs| ==> gs[i].id != id
  {
    if gs == [] then None
    else if gs[0].id == id then Some(0)
    else match IndexOf(gs[1..], id)
      case None => None
      case Some(k) => Some(k + 1)
  }

  class GadoStore {
    /** The `gado` table, in the order `findMany` returns it. */
    var gados: seq<Gado>
    /** The `racas` table: breed id to breed name. */
    var racas: map<int, string>
    /** The ids of the `admin` table, which a listing refers to. */
    var adminIds: set<string>
    /** The next autoincrement id. */
    var nextId: int

    /** Ids are distinct and below the autoincrement counter. */
    ghost predicate Valid()
      reads this
    {
      && (forall i :: 0 <= i < |gados| ==> gados[i].id < nextId)
      && (forall i, j :: 0 <= i < j < |gados| ==> gados[i].id != gados[j].id)
    }

    constructor (racas: map<int, string>, adminIds: set<string>)
      ensures Valid()
      ensures gados == [] && nextId == 1 && this.racas == racas && this.adminIds == adminIds
    {
      gados := [];
      this.racas := racas;
      this.adminIds := adminIds;
      nextId := 1;
    }

    /** GET `/`: every listing, photo defaulted. */
    method Listar() returns (res: Reply<Body>)
      ensures res.status == 200 && res.body.Lista?
      ensures |res.body.gados| == |gados|
      ensures forall i :: 0 <= i < |gados| ==> res.body.gados[i] == ComFotoPadrao(gados[i])
    {
      res := Reply(200, Lista(AplicaFotoPadrao(gados)));
    }

    /** GET `/pesquisa/:termo`. */
    method Pesquisar(termo: string) returns (res: Reply<Body>)
      ensures res == Reply(200, Lista(Pesquisa(gados, racas, termo)))
      ensures forall g :: g in res.body.gados ==> TemFoto(g)
    {
      res := Reply(200, Lista(Pesquisa(gados, racas, termo)));
    }

    /**
     * GET `/:id`: 404 for an unknown id, otherwise the listing with its photo
     * defaulted (on the fetched copy; the table is not written). An id that
     * `Number` reads as `NaN` makes the query throw.
     */
    method BuscarPorId(id: string) returns (res: Reply<Body>)
      ensures ParseNumber(id) == None ==> res == Reply(400, FalhaBanco)
      ensures ParseNumber(id).Some? && IndexOf(gados, ParseNumber(id).value) == None ==>
        res == Reply(404, Erro(MsgNaoEncontrado))
      ensures res.status == 200 <==> ParseNumber(id).Some? && IndexOf(gados, ParseNumber(id).value).Some?
      ensures res.status == 200 ==>
        res == Reply(200, Item(ComFotoPadrao(gados[IndexOf(gados, ParseNumber(id).value).value])))
        && TemFoto(res.body.gado) && res.body.gado.id == ParseNumber(id).value
    {
      var n := ParseNumber(id);
      if n == None {
        return Reply(400, FalhaBanco);
      }
      var k := IndexOf(gados, n.value);
      if k == None {
        return Reply(404, Erro(MsgNaoEncontrado));
      }
      var gado := gados[k.value];
      gado := gado.(foto := Some(if TemFoto(gado) then gado.foto.value else FotoPadrao));
      res := Reply(200, Item(gado));
    }

    /**
     * POST `/`: any required field missing gives 400 and creates nothing; a
     * breed or admin id the tables do not hold makes the insert fail; else
     * the listing is appended under the next id.
     */
    method Cadastrar(req: NovoGado) returns (res: Reply<Body>)
      requires Valid()
      modifies this
      ensures Valid()
      ensures racas == old(racas) && adminIds == old(adminIds)
      ensures !Completo(req) ==> res == Reply(400, Erro(MsgCamposGado)) && unchanged(this)
      ensures Completo(req) && (req.racasId.value !in racas || req.adminId.value !in adminIds) ==>
        res == Reply(400, FalhaBanco) && unchanged(this)
      ensures res.status == 201 <==> Completo(req) && req.racasId.value in racas && req.adminId.value in adminIds
      ensures res.status == 201 ==>
        var novo := Gado(old(nextId), req.tipo.value, req.idade.value, req.preco.value, req.peso.value,
                         req.informacoes.value, req.destaque, req.foto, req.sexo.value,
                         req.racasId.value, req.adminId.value);
        && gados == old(gados) + [novo]
        && nextId == old(nextId) + 1
        && res.body == Item(novo)
    {
      if !Completo(req) {
        return Reply(400, Erro(MsgCamposGado));
      }
      if req.racasId.value !in racas || req.adminId.value !in adminIds {
        return Reply(400, FalhaBanco);
      }
      var gado := Gado(nextId, req.tipo.value, req.idade.value, req.preco.value, req.peso.value,
                       req.informacoes.value, req.destaque, req.foto, req.sexo.value,
                       req.racasId.value, req.adminId.value);
      gados := gados + [gado];
      nextId := nextId + 1;
      res := Reply(201, Item(gado));
    }

    /**
     * PUT `/:id`: `sexo` and `racasId` are required; `foto` is written as the
     * placeholder when the body leaves it out. Only those three fields of the
     * matching row change; an unknown id or breed makes the update fail.
     */
    method Atualizar(id: string, sexo: Option<string>, racasId: Option<int>, foto: Option<string>)
      returns (res: Reply<Body>)
      requires Valid()
      modifies this
      ensures Valid()
      ensures racas == old(racas) && adminIds == old(adminIds) && nextId == old(nextId)
      ensures !(Informado(sexo) && InformadoNum(racasId)) ==>
        res == Reply(400, Erro(MsgCamposAtualizacao)) && unchanged(this)
      ensures res.status == 200 <==>
        Informado(sexo) && InformadoNum(racasId) && racasId.value in racas
        && ParseNumber(id).Some? && IndexOf(old(gados), ParseNumber(id).value).Some?
      ensures res.status != 200 ==> gados == old(gados)
      ensures Informado(sexo) && InformadoNum(racasId) && res.status != 200 ==>
        res == Reply(400, FalhaBanco) && unchanged(this)
      ensures res.status == 200 ==>
        var k := IndexOf(old(gados), ParseNumber(id).value).value;
        var novo := old(gados)[k].(sexo := sexo.value, racasId := racasId.value,
                                   foto := Some(foto.GetOr(FotoPadrao)));
        && gados == old(gados)[k := novo]
        && res.body == Item(novo)
    {
      if !Informado(sexo) || !InformadoNum(racasId) {
        return Reply(400, Erro(MsgCamposAtualizacao));
      }
      var n := ParseNumber(id);
      if n == None || racasId.value !in racas {
        return Reply(400, FalhaBanco);
      }
      var k := IndexOf(gados, n.value);
      if k == None {
        return Reply(400, FalhaBanco);
      }
      var gado := gados[k.value].(sexo := sexo.value, racasId := racasId.value, foto := Some(foto.GetOr(FotoPadrao)));
      gados := gados[k.value := gado];
      res := Reply(200, Item(gado));
    }

    /** DELETE `/:id`: removes the matching row and returns it; an unknown id fails. */
    method Remover(id: string) returns (res: Reply<Body>)
      requires Valid()
      modifies this
      ensures Valid()
      ensures racas == old(racas) && adminIds == old(adminIds) && nextId == old(nextId)
      ensures res.status == 200 <==> ParseNumber(id).Some? && IndexOf(old(gados), ParseNumber(id).value).Some?
      ensures res.status != 200 ==> res == Reply(400, FalhaBanco) && gados == old(gados)
      ensures res.status == 200 ==>
        var k := IndexOf(old(gados), ParseNumber(id).value).value;
        && gados == old(gados)[..k] + old(gados)[k + 1..]
        && res.body == Item(old(gados)[k])
    {
      var n := ParseNumber(id);
      if n == None {
        return Reply(400, FalhaBanco);
      }
      var k := IndexOf(gados, n.value);
      if k == None {
        return Reply(400, FalhaBanco);
      }
      res := Reply(200, Item(gados[k.value]));
      gados := gados[..k.value] + gados[k.value + 1..];
    }
  }
}
