/**
 * The customer routes: registration, login, password reset and the CPF
 * existence check, over a store of customers keyed by CPF (the unique key of
 * the customer table).
 */
module Clientes {
  import opened Wrappers
  import opened Text
  import opened Http
  import opened Crypto
  import Policy

  datatype Cliente = Cliente(id: nat, nome: string, cpf: string, telefone: string, senha: string)

  /** The JSON bodies the customer routes send. */
  datatype Body =
    | Erro(erro: string)
    | Registro(cliente: Cliente)                                    // the stored row, as Prisma returns it
    | Perfil(id: nat, nome: string, cpf: string, telefone: string)  // login: the row without `senha`
    | Existe(existe: bool)
    | FalhaBanco                                                    // the raw Prisma error object

  /** The body of POST `/`. */
  datatype Cadastro = Cadastro(nome: Option<string>, cpf: Option<string>, telefone: Option<string>, senha: Option<string>)

  predicate Completo(c: Cadastro) {
    Informado(c.nome) && Informado(c.cpf) && Informado(c.telefone) && Informado(c.senha)
  }

  const MensagensTelefone := Policy.MensagensTelefone(
    "Erro... o telefone deve ter 10 ou 11 dígitos (DDD + número).",
    "Erro... o telefone deve conter apenas números.")
  const MsgCamposCadastro := "Por favor, informe nome, CPF, telefone e senha."
  const MsgCpfDuplicado := "CPF já cadastrado."
  const MsgLogin := "CPF ou senha incorretos."
  const MsgNovaSenha := "Por favor, informe a nova senha."
  const MsgCpfAusente := "CPF não informado."
  const Separador := "; "

  class ClienteStore {
    var clientes: map<string, Cliente>
    var nextId: nat
    const hasher: Hasher

    /** A password value the store holds came out of the hash function. */
    ghost predicate Hashed(senha: string) {
      exists p, salt :: senha == hasher.hash(p, salt)
    }

    /**
     * Each row sits under its own CPF, ids are distinct and below `nextId`,
     * every phone is in canonical form and every password is a hash.
     */
    ghost predicate Valid()
      reads this
    {
      && (forall cpf :: cpf in clientes ==> clientes[cpf].cpf == cpf && clientes[cpf].id < nextId)
      && (forall a, b :: a in clientes && b in clientes && a != b ==> clientes[a].id != clientes[b].id)
      && (forall cpf :: cpf in clientes ==> Policy.TelefoneCanonico(clientes[cpf].telefone))
      && (forall cpf :: cpf in clientes ==> Hashed(clientes[cpf].senha))
    }

    constructor (hasher: Hasher)
      ensures Valid()
      ensures clientes == map[] && nextId == 0 && this.hasher == hasher
    {
      clientes := map[];
      nextId := 0;
      this.hasher := hasher;
    }

    /**
     * POST `/`: required fields, then the phone rule, then the password rule,
     * then the canonical phone and the hash, then an insert that the CPF
     * uniqueness constraint turns into 409 when the CPF is taken.
     */
    method Cadastrar(req: Cadastro, salt: string) returns (res: Reply<Body>)
      requires Valid()
      modifies this
      ensures Valid()
      ensures !Completo(req) ==>
        res == Reply(400, Erro(MsgCamposCadastro)) && unchanged(this)
      ensures Completo(req) && Policy.TelefoneErros(req.telefone.value, MensagensTelefone) != [] ==>
        res == Reply(400, Erro(Join(Policy.TelefoneErros(req.telefone.value, MensagensTelefone), Separador)))
        && unchanged(this)
      ensures Completo(req) && Policy.TelefoneErros(req.telefone.value, MensagensTelefone) == []
              && Policy.SenhaErros(req.senha.value) != [] ==>
        res == Reply(400, Erro(Join(Policy.SenhaErros(req.senha.value), Separador))) && unchanged(this)
      ensures res.status == 409 <==>
        Completo(req) && Policy.TelefoneErros(req.telefone.value, MensagensTelefone) == []
        && Policy.SenhaErros(req.senha.value) == [] && req.cpf.value in old(clientes)
      ensures res.status == 409 ==> res.body == Erro(MsgCpfDuplicado) && unchanged(this)
      ensures res.status == 201 <==>
        Completo(req) && Policy.TelefoneErros(req.telefone.value, MensagensTelefone) == []
        && Policy.SenhaErros(req.senha.value) == [] && req.cpf.value !in old(clientes)
      ensures res.status == 201 ==>
        var novo := Cliente(old(nextId), req.nome.value, req.cpf.value,
                            Policy.Canonico(req.telefone.value), hasher.hash(req.senha.value, salt));
        && clientes == old(clientes)[req.cpf.value := novo]
        && nextId == old(nextId) + 1
        && res.body == Registro(novo)
    {
      if !Informado(req.nome) || !Informado(req.cpf) || !Informado(req.telefone) || !Informado(req.senha) {
        return Reply(400, Erro(MsgCamposCadastro));
      }
      var nome, cpf, telefone, senha := req.nome.value, req.cpf.value, req.telefone.value, req.senha.value;

      var errosTelefone := Policy.ValidaTelefone(telefone, MensagensTelefone);
      if |errosTelefone| > 0 {
        return Reply(400, Erro(Join(errosTelefone, Separador)));
      }
      var errosSenha := Policy.ValidaSenha(senha);
      if |errosSenha| > 0 {
        return Reply(400, Erro(Join(errosSenha, Separador)));
      }

      var telefoneParaSalvar := Policy.Ddi + Digits(telefone);
      var hash := hasher.hash(senha, salt);

      if cpf in clientes {
        return Reply(409, Erro(MsgCpfDuplicado));
      }
      var cliente := Cliente(nextId, nome, cpf, telefoneParaSalvar, hash);
      clientes := clientes[cpf := cliente];
      nextId := nextId + 1;
      res := Reply(201, Registro(cliente));
    }

    /**
     * POST `/login`: a missing field, an unknown CPF and a wrong password all
     * get the same 400 reply; success returns the profile without the hash.
     */
    method Login(cpf: Option<string>, senha: Option<string>) returns (res: Reply<Body>)
      ensures res.status == 200 <==>
        Informado(cpf) && Informado(senha) && cpf.value in clientes
        && hasher.compare(senha.value, clientes[cpf.value].senha)
      ensures res.status == 200 ==>
        var c := clientes[cpf.value];
        res.body == Perfil(c.id, c.nome, c.cpf, c.telefone)
      ensures res.status != 200 ==> res == Reply(400, Erro(MsgLogin))
    {
      if !Informado(cpf) || !Informado(senha) {
        return Reply(400, Erro(MsgLogin));
      }
      if cpf.value !in clientes {
        return Reply(400, Erro(MsgLogin));
      }
      var cliente := clientes[cpf.value];
      if hasher.compare(senha.value, cliente.senha) {
        res := Reply(200, Perfil(cliente.id, cliente.nome, cliente.cpf, cliente.telefone));
      } else {
        res := Reply(400, Erro(MsgLogin));
      }
    }

    /**
     * PUT `/redefinir-senha/:cpf`: the new password must be present and obey
     * the password rule; then only the `senha` of the matching row is
     * replaced by its hash. An unknown CPF makes the update throw (400).
     */
    method RedefinirSenha(cpf: string, senha: Option<string>, salt: string) returns (res: Reply<Body>)
      requires Valid()
      modifies this
      ensures Valid()
      ensures nextId == old(nextId)
      ensures !Informado(senha) ==> res == Reply(400, Erro(MsgNovaSenha)) && unchanged(this)
      ensures Informado(senha) && Policy.SenhaErros(senha.value) != [] ==>
        res == Reply(400, Erro(Join(Policy.SenhaErros(senha.value), Separador))) && unchanged(this)
      ensures Informado(senha) && Policy.SenhaErros(senha.value) == [] && cpf !in old(clientes) ==>
        res == Reply(400, FalhaBanco) && unchanged(this)
      ensures res.status == 200 <==>
        Informado(senha) && Policy.SenhaErros(senha.value) == [] && cpf in old(clientes)
      ensures res.status == 200 ==>
        var atualizado := old(clientes)[cpf].(senha := hasher.hash(senha.value, salt));
        && clientes == old(clientes)[cpf := atualizado]
        && res.body == Registro(atualizado)
    {
      if !Informado(senha) {
        return Reply(400, Erro(MsgNovaSenha));
      }
      var errosSenha := Policy.ValidaSenha(senha.value);
      if |errosSenha| > 0 {
        return Reply(400, Erro(Join(errosSenha, Separador)));
      }
      var hash := hasher.hash(senha.value, salt);
      if cpf !in clientes {
        return Reply(400, FalhaBanco);
      }
      var cliente := clientes[cpf].(senha := hash);
      clientes := clientes[cpf := cliente];
      res := Reply(200, Registro(cliente));
    }

    /** POST `/verifica-cpf`: 200 `{existe: true}` or 404 `{existe: false}`. */
    method VerificaCpf(cpf: Option<string>) returns (res: Reply<Body>)
      ensures !Informado(cpf) ==> res == Reply(400, Erro(MsgCpfAusente))
      ensures Informado(cpf) ==> res.body == Existe(cpf.value in clientes)
      ensures Informado(cpf) ==> (res.status == 200 <==> cpf.value in clientes)
      ensures Informado(cpf) && cpf.value !in clientes ==> res.status == 404
    {
      if !Informado(cpf) {
        return Reply(400, Erro(MsgCpfAusente));
      }
      if cpf.value in clientes {
        res := Reply(200, Existe(true));
      } else {
        res := Reply(404, Existe(false));
      }
    }
  }

  /** The digits of the phone "(11) 98765-4321", worked out piece by piece. */
  lemma ExemploTelefone()
    ensures Digits("(11) 9" + "8765-" + "4321") == "119" + "8765" + "4321"
  {
    assert Digits("(11) 9") == "119";
    assert Digits("8765-") == "8765";
    DigitsOfDigitString("4321");
    DigitsConcat("(11) 9", "8765-");
    DigitsConcat("(11) 9" + "8765-", "4321");
  }

  lemma ExemploSenha()
    ensures Policy.Composta("Abc12345!")
  {
    var senha := "Abc12345!";
    assert Policy.ClassOf(senha[1]) == Policy.Minuscula;
    assert Policy.ClassOf(senha[0]) == Policy.Maiuscula;
    assert Policy.ClassOf(senha[3]) == Policy.Numero;
    assert Policy.ClassOf(senha[8]) == Policy.Simbolo;
  }

  /**
   * The registration data "Ana", "12345678900", "(11) 98765-4321",
   * "Abc12345!" passes both rules, and the phone is stored as "+5511987654321".
   */
  lemma ExemploAna()
    ensures Policy.TelefoneErros("(11) 9" + "8765-" + "4321", MensagensTelefone) == []
    ensures Policy.Canonico("(11) 9" + "8765-" + "4321") == "+55" + "119" + "8765" + "4321"
    ensures Policy.SenhaErros("Abc12345!") == []
  {
    ExemploTelefone();
    ExemploSenha();
  }

  /**
   * A customer session end to end: a valid registration succeeds and stores
   * the canonical phone and the hash; repeating it is a conflict; login with
   * the registered password returns the profile; a wrong password and an
   * unknown CPF get the same reply.
   */
  method CenarioCadastroLogin(h: Hasher, req: Cadastro, salt: string, outraSenha: string, outroCpf: string)
    returns (primeiro: Reply<Body>, repetido: Reply<Body>, correto: Reply<Body>,
             senhaErrada: Reply<Body>, cpfDesconhecido: Reply<Body>)
    requires Completo(req)
    requires Policy.TelefoneErros(req.telefone.value, MensagensTelefone) == []
    requires Policy.SenhaErros(req.senha.value) == []
    requires Matches(h, req.senha.value, salt)
    requires outraSenha != "" && !h.compare(outraSenha, h.hash(req.senha.value, salt))
    requires outroCpf != "" && outroCpf != req.cpf.value
    ensures primeiro == Reply(201, Registro(Cliente(0, req.nome.value, req.cpf.value,
                                                    Policy.Canonico(req.telefone.value),
                                                    h.hash(req.senha.value, salt))))
    ensures repetido == Reply(409, Erro(MsgCpfDuplicado))
    ensures correto == Reply(200, Perfil(0, req.nome.value, req.cpf.value, Policy.Canonico(req.telefone.value)))
    ensures senhaErrada == cpfDesconhecido == Reply(400, Erro(MsgLogin))
  {
    var store := new ClienteStore(h);
    primeiro := store.Cadastrar(req, salt);
    repetido := store.Cadastrar(req, salt);
    correto := store.Login(req.cpf, req.senha);
    senhaErrada := store.Login(req.cpf, Some(outraSenha));
    cpfDesconhecido := store.Login(Some(outroCpf), req.senha);
  }
}
