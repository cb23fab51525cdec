/**
 * The administrator routes: registration and login over a store of
 * administrators keyed by e-mail (the unique key of the admin table). Login
 * issues a signed token.
 */
module Admins {
  import opened Wrappers
  import opened Text
  import opened Http
  import opened Crypto
  import Policy

  datatype Admin = Admin(id: nat, nome: string, email: string, whats: string, senha: string)

  /** The claims signed into the session token. */
  datatype Claims = Claims(adminLogadoId: nat, adminLogadoNome: string, adminLogadoEmail: string, adminLogadoWhats: string)

  /** The JSON bodies the administrator routes send. */
  datatype Body =
    | Erro(erro: string)
    | Registro(admin: Admin)                                      // the stored row, as Prisma returns it
    | Sessao(id: nat, nome: string, whats: string, token: string)  // login: no `senha`, no `email`

  /** The body of POST `/`. */
  datatype Cadastro = Cadastro(nome: Option<string>, email: Option<string>, whats: Option<string>, senha: Option<string>)

  predicate Completo(c: Cadastro) {
    Informado(c.nome) && Informado(c.email) && Informado(c.whats) && Informado(c.senha)
  }

  const MensagensTelefone := Policy.MensagensTelefone(
    "Erro... o telefone (WhatsApp) deve ter 10 ou 11 dígitos (DDD + número).",
    "Erro... o telefone (WhatsApp) deve conter apenas números.")
  const MsgCamposCadastro := "Por favor, informe nome, email, WhatsApp e senha."
  const MsgEmailDuplicado := "E-mail já cadastrado para outro administrador."
  const MsgLogin := "Login ou senha incorretos"
  const Separador := "; "
  /** `expiresIn: "1h"`, in seconds. */
  const ValidadeToken := 3600

  /** The claims of a stored administrator: a snapshot of the row. */
  function ClaimsOf(a: Admin): (c: Claims)
    ensures c.adminLogadoId == a.id && c.adminLogadoNome == a.nome
    ensures c.adminLogadoEmail == a.email && c.adminLogadoWhats == a.whats
  {
    Claims(a.id, a.nome, a.email, a.whats)
  }

  class AdminStore {
    var admins: map<string, Admin>
    var nextId: nat
    const hasher: Hasher
    /** `jwt.sign(claims, chave, {expiresIn})`. */
    const sign: (Claims, string, nat) -> string
    /** `process.env.JWT_KEY`. */
    const chaveJwt: string

    ghost predicate Hashed(senha: string) {
      exists p, salt :: senha == hasher.hash(p, salt)
    }

    /**
     * Each row sits under its own e-mail, ids are distinct and below
     * `nextId`, every WhatsApp number is canonical, every password a hash.
     */
    ghost predicate Valid()
      reads this
    {
      && (forall e :: e in admins ==> admins[e].email == e && admins[e].id < nextId)
      && (forall a, b :: a in admins && b in admins && a != b ==> admins[a].id != admins[b].id)
      && (forall e :: e in admins ==> Policy.TelefoneCanonico(admins[e].whats))
      && (forall e :: e in admins ==> Hashed(admins[e].senha))
    }

    constructor (hasher: Hasher, sign: (Claims, string, nat) -> string, chaveJwt: string)
      ensures Valid()
      ensures admins == map[] && nextId == 0
      ensures this.hasher == hasher && this.sign == sign && this.chaveJwt == chaveJwt
    {
      admins := map[];
      nextId := 0;
      this.hasher := hasher;
      this.sign := sign;
      this.chaveJwt := chaveJwt;
    }

    /**
     * POST `/`: required fields, then the password rule, then the phone
     * rule (the reverse of the customer route), then the canonical number and
     * the hash, then an insert that the e-mail uniqueness constraint turns
     * into 409 when the e-mail is taken.
     */
    method Cadastrar(req: Cadastro, salt: string) returns (res: Reply<Body>)
      requires Valid()
      modifies this
      ensures Valid()
      ensures !Completo(req) ==>
        res == Reply(400, Erro(MsgCamposCadastro)) && unchanged(this)
      ensures Completo(req) && Policy.SenhaErros(req.senha.value) != [] ==>
        res == Reply(400, Erro(Join(Policy.SenhaErros(req.senha.value), Separador))) && unchanged(this)
      ensures Completo(req) && Policy.SenhaErros(req.senha.value) == []
              && Policy.TelefoneErros(req.whats.value, MensagensTelefone) != [] ==>
        res == Reply(400, Erro(Join(Policy.TelefoneErros(req.whats.value, MensagensTelefone), Separador)))
        && unchanged(this)
      ensures res.status == 409 <==>
        Completo(req) && Policy.SenhaErros(req.senha.value) == []
        && Policy.TelefoneErros(req.whats.value, MensagensTelefone) == [] && req.email.value in old(admins)
      ensures res.status == 409 ==> res.body == Erro(MsgEmailDuplicado) && unchanged(this)
      ensures res.status == 201 <==>
        Completo(req) && Policy.SenhaErros(req.senha.value) == []
        && Policy.TelefoneErros(req.whats.value, MensagensTelefone) == [] && req.email.value !in old(admins)
      ensures res.status == 201 ==>
        var novo := Admin(old(nextId), req.nome.value, req.email.value,
                          Policy.Canonico(req.whats.value), hasher.hash(req.senha.value, salt));
        && admins == old(admins)[req.email.value := novo]
        && nextId == old(nextId) + 1
        && res.body == Registro(novo)
    {
      if !Informado(req.nome) || !Informado(req.email) || !Informado(req.whats) || !Informado(req.senha) {
        return Reply(400, Erro(MsgCamposCadastro));
      }
      var nome, email, whats, senha := req.nome.value, req.email.value, req.whats.value, req.senha.value;

      var errosSenha := Policy.ValidaSenha(senha);
      if |errosSenha| > 0 {
        return Reply(400, Erro(Join(errosSenha, Separador)));
      }
      var errosWhats := Policy.ValidaTelefone(whats, MensagensTelefone);
      if |errosWhats| > 0 {
        return Reply(400, Erro(Join(errosWhats, Separador)));
      }

      var whatsParaSalvar := Policy.Ddi + Digits(whats);
      var hash := hasher.hash(senha, salt);

      if email in admins {
        return Reply(409, Erro(MsgEmailDuplicado));
      }
      var admin := Admin(nextId, nome, email, whatsParaSalvar, hash);
      admins := admins[email := admin];
      nextId := nextId + 1;
      res := Reply(201, Registro(admin));
    }

    /**
     * POST `/login`: a missing field, an unknown e-mail and a wrong password
     * all get the same 400 reply; success signs the row's claims for one hour
     * and returns id, name, WhatsApp and the token.
     */
    method Login(email: Option<string>, senha: Option<string>) returns (res: Reply<Body>)
      ensures res.status == 200 <==>
        Informado(email) && Informado(senha) && email.value in admins
        && hasher.compare(senha.value, admins[email.value].senha)
      ensures res.status == 200 ==>
        var a := admins[email.value];
        res.body == Sessao(a.id, a.nome, a.whats, sign(ClaimsOf(a), chaveJwt, ValidadeToken))
      ensures res.status != 200 ==> res == Reply(400, Erro(MsgLogin))
    {
      if !Informado(email) || !Informado(senha) {
        return Reply(400, Erro(MsgLogin));
      }
      if email.value !in admins {
        return Reply(400, Erro(MsgLogin));
      }
      var admin := admins[email.value];
      if hasher.compare(senha.value, admin.senha) {
        var token := sign(Claims(admin.id, admin.nome, admin.email, admin.whats), chaveJwt, ValidadeToken);
        res := Reply(200, Sessao(admin.id, admin.nome, admin.whats, token));
      } else {
        res := Reply(400, Erro(MsgLogin));
      }
    }
  }

  /**
   * Registering and then logging in with the same password yields a token
   * for exactly the registered data; a second registration of the e-mail is
   * refused; a wrong password and an unknown e-mail get the same reply.
   */
  method CenarioCadastroLogin(h: Hasher, sign: (Claims, string, nat) -> string, chave: string,
                              req: Cadastro, salt: string, outraSenha: string, outroEmail: string)
    returns (primeiro: Reply<Body>, repetido: Reply<Body>, correto: Reply<Body>,
             senhaErrada: Reply<Body>, emailDesconhecido: Reply<Body>)
    requires Completo(req)
    requires Policy.SenhaErros(req.senha.value) == []
    requires Policy.TelefoneErros(req.whats.value, MensagensTelefone) == []
    requires Matches(h, req.senha.value, salt)
    requires outraSenha != "" && !h.compare(outraSenha, h.hash(req.senha.value, salt))
    requires outroEmail != "" && outroEmail != req.email.value
    ensures primeiro.status == 201
    ensures repetido == Reply(409, Erro(MsgEmailDuplicado))
    ensures correto == Reply(200, Sessao(0, req.nome.value, Policy.Canonico(req.whats.value),
                                         sign(Claims(0, req.nome.value, req.email.value, Policy.Canonico(req.whats.value)),
                                              chave, ValidadeToken)))
    ensures senhaErrada == emailDesconhecido == Reply(400, Erro(MsgLogin))
  {
    var store := new AdminStore(h, sign, chave);
    primeiro := store.Cadastrar(req, salt);
    repetido := store.Cadastrar(req, salt);
    correto := store.Login(req.email, req.senha);
    senhaErrada := store.Login(req.email, Some(outraSenha));
    emailDesconhecido := store.Login(Some(outroEmail), req.senha);
  }
}
