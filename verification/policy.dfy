/**
 * The credential policy shared by the customer and the administrator routes:
 * the password rule (`validaSenha`, the same text in both route files) and the
 * phone rule (`validaTelefone`, whose two copies differ only in the wording of
 * their messages), plus the canonical "+55" form a valid phone is stored in.
 */
module Policy {
  import opened Text

  // ---------------------------------------------------------------- password

  /** The four classes the password loop sorts every character into. */
  datatype CharClass = Minuscula | Maiuscula | Numero | Simbolo

  /** The `if / else if` chain of `/[a-z]/`, `/[A-Z]/`, `/[0-9]/` tests. */
  function ClassOf(c: char): (k: CharClass)
    ensures k == Minuscula <==> 'a' <= c <= 'z'
    ensures k == Maiuscula <==> 'A' <= c <= 'Z'
    ensures k == Numero <==> '0' <= c <= '9'
    ensures k == Simbolo <==> !('a' <= c <= 'z' || 'A' <= c <= 'Z' || '0' <= c <= '9')
  {
    if 'a' <= c <= 'z' then Minuscula
    else if 'A' <= c <= 'Z' then Maiuscula
    else if '0' <= c <= '9' then Numero
    else Simbolo
  }

  /** How many characters of `s` fall in class `k`. */
  function Count(s: string, k: CharClass): (n: nat)
    ensures n <= |s|
    ensures (forall i :: 0 <= i < |s| ==> ClassOf(s[i]) == k) ==> n == |s|
    ensures (forall i :: 0 <= i < |s| ==> ClassOf(s[i]) != k) ==> n == 0
  {
    if s == [] then 0
    else Count(s[..|s| - 1], k) + (if ClassOf(s[|s| - 1]) == k then 1 else 0)
  }

  /** Some character of `s` is of class `k`. */
  ghost predicate Has(s: string, k: CharClass) {
    exists i :: 0 <= i < |s| && ClassOf(s[i]) == k
  }

  /** The composition rule: lower case, upper case, digit and symbol all occur. */
  ghost predicate Composta(s: string) {
    Has(s, Minuscula) && Has(s, Maiuscula) && Has(s, Numero) && Has(s, Simbolo)
  }

  const MinimoCaracteres := 8
  const MsgTamanhoSenha := "Erro... a senha deve ter, no mínimo, 8 caracteres."
  const MsgComposicaoSenha := "Erro... a senha deve conter letras minúsculas, maiúsculas, números e símbolos."

  /**
   * What the password rule reports: the length message if the password is
   * too short, then the single composition message if a class is missing.
   */
  ghost function SenhaErros(senha: string): (r: seq<string>)
    ensures |r| <= 2
    ensures r == [] <==> |senha| >= MinimoCaracteres && Composta(senha)
    ensures |senha| < MinimoCaracteres ==> r[0] == MsgTamanhoSenha
    ensures MsgComposicaoSenha in r <==> !Composta(senha)
    ensures forall m :: m in r ==> m == MsgTamanhoSenha || m == MsgComposicaoSenha
  {
    (if |senha| < MinimoCaracteres then [MsgTamanhoSenha] else [])
    + (if Composta(senha) then [] else [MsgComposicaoSenha])
  }

  /** Every character is counted in exactly one class. */
  lemma {:induction false} CountsPartition(s: string)
    ensures Count(s, Minuscula) + Count(s, Maiuscula) + Count(s, Numero) + Count(s, Simbolo) == |s|
  {
    if s != [] {
      CountsPartition(s[..|s| - 1]);
    }
  }

  /** A class counter is non-zero exactly when the class occurs. */
  lemma {:induction false} CountPositiveIff(s: string, k: CharClass)
    ensures Count(s, k) > 0 <==> Has(s, k)
  {
    if s != [] {
      var p := s[..|s| - 1];
      CountPositiveIff(p, k);
      if Has(p, k) {
        var i :| 0 <= i < |p| && ClassOf(p[i]) == k;
        assert s[i] == p[i];
      }
      if Has(s, k) && ClassOf(s[|s| - 1]) != k {
        var i :| 0 <= i < |s| && ClassOf(s[i]) == k;
        assert i < |p| && p[i] == s[i];
      }
    }
  }

  /** Reading one more character bumps exactly the counter of its class. */
  lemma CountStep(s: string, i: nat, k: CharClass)
    requires i < |s|
    ensures Count(s[..i + 1], k) == Count(s[..i], k) + (if ClassOf(s[i]) == k then 1 else 0)
  {
    assert s[..i + 1][..i] == s[..i];
  }

  /**
   * `validaSenha`: counts the characters of each class in one pass, then
   * builds the message list.
   */
  method ValidaSenha(senha: string) returns (mensa: seq<string>)
    ensures mensa == SenhaErros(senha)
  {
    mensa := [];
    if |senha| < MinimoCaracteres {
      mensa := mensa + [MsgTamanhoSenha];
    }
    var pequenas, grandes, numeros, simbolos := 0, 0, 0, 0;
    for i := 0 to |senha|
      invariant pequenas == Count(senha[..i], Minuscula)
      invariant grandes == Count(senha[..i], Maiuscula)
      invariant numeros == Count(senha[..i], Numero)
      invariant simbolos == Count(senha[..i], Simbolo)
    {
      CountStep(senha, i, Minuscula);
      CountStep(senha, i, Maiuscula);
      CountStep(senha, i, Numero);
      CountStep(senha, i, Simbolo);
      var letra := senha[i];
      if 'a' <= letra <= 'z' {
        pequenas := pequenas + 1;
      } else if 'A' <= letra <= 'Z' {
        grandes := grandes + 1;
      } else if '0' <= letra <= '9' {
        numeros := numeros + 1;
      } else {
        simbolos := simbolos + 1;
      }
    }
    assert senha[..|senha|] == senha;
    CountPositiveIff(senha, Minuscula);
    CountPositiveIff(senha, Maiuscula);
    CountPositiveIff(senha, Numero);
    CountPositiveIff(senha, Simbolo);
    if pequenas == 0 || grandes == 0 || numeros == 0 || simbolos == 0 {
      mensa := mensa + [MsgComposicaoSenha];
    }
  }

  // ------------------------------------------------------------------- phone

  /** The two messages of one copy of `validaTelefone`. */
  datatype MensagensTelefone = MensagensTelefone(tamanho: string, apenasNumeros: string)

  /** A phone is accepted when its digits are an area code plus 8 or 9 digits. */
  predicate TamanhoValido(digitos: string) {
    |digitos| == 10 || |digitos| == 11
  }

  /**
   * What the phone rule reports, stated on the digits of the input: the
   * length message unless there are 10 or 11 of them, then the digits-only
   * message exactly when there are none at all.
   */
  ghost function TelefoneErros(telefone: string, msgs: MensagensTelefone): (r: seq<string>)
    ensures r == [] <==> TamanhoValido(Digits(telefone))
    ensures |r| <= 2
    ensures Digits(telefone) == [] ==> r == [msgs.tamanho, msgs.apenasNumeros]
    ensures msgs.tamanho != msgs.apenasNumeros ==> (msgs.apenasNumeros in r <==> Digits(telefone) == [])
  {
    var d := Digits(telefone);
    (if TamanhoValido(d) then [] else [msgs.tamanho])
    + (if d == [] then [msgs.apenasNumeros] else [])
  }

  /**
   * `validaTelefone`: strips the non-digits, checks the count, then applies
   * `/^\d+$/` to what is left; that second test fails only on an empty result.
   */
  method ValidaTelefone(telefone: string, msgs: MensagensTelefone) returns (mensa: seq<string>)
    ensures mensa == TelefoneErros(telefone, msgs)
    ensures mensa == [] <==> TamanhoValido(Digits(telefone))
  {
    mensa := [];
    var limpo := Digits(telefone);
    if |limpo| != 10 && |limpo| != 11 {
      mensa := mensa + [msgs.tamanho];
    }
    if !OnlyDigitsPattern(limpo) {
      mensa := mensa + [msgs.apenasNumeros];
    }
  }

  /**
   * The two copies of the phone rule accept and reject the same inputs and
   * report the same number of problems.
   */
  lemma PhoneRuleIgnoresWording(telefone: string, m1: MensagensTelefone, m2: MensagensTelefone)
    ensures TelefoneErros(telefone, m1) == [] <==> TelefoneErros(telefone, m2) == []
    ensures |TelefoneErros(telefone, m1)| == |TelefoneErros(telefone, m2)|
  {
  }

  // --------------------------------------------------------- canonical phone

  const Ddi := "+55"

  /** The country code contributes the digits "55". */
  lemma DigitsOfDdi()
    ensures Digits(Ddi) == "55"
  {
    assert Ddi[1..] == "55";
    assert Ddi[1..][1..] == "5";
    assert Ddi[1..][1..][1..] == "";
  }

  /**
   * The stored form: "+55" followed by the digits of the input. It is a
   * well-formed stored phone exactly when the rule's length test passes, and
   * its own digits are the input's digits behind "55".
   */
  function Canonico(telefone: string): (r: string)
    ensures TelefoneCanonico(r) <==> TamanhoValido(Digits(telefone))
    ensures Digits(r) == "55" + Digits(telefone)
  {
    var d := Digits(telefone);
    DigitsConcat(Ddi, d);
    DigitsOfDigitString(d);
    DigitsOfDdi();
    assert (Ddi + d)[..3] == Ddi && (Ddi + d)[3..] == d;
    Ddi + d
  }

  /** A stored phone: "+55" and then 10 or 11 digits, nothing else. */
  predicate TelefoneCanonico(t: string) {
    |t| >= 3 && t[..3] == Ddi && AllDigits(t[3..]) && TamanhoValido(t[3..])
  }

  /** A phone the rule accepts canonicalises to a well-formed stored phone. */
  lemma AcceptedPhoneIsCanonical(telefone: string, msgs: MensagensTelefone)
    requires TelefoneErros(telefone, msgs) == []
    ensures TelefoneCanonico(Canonico(telefone))
  {
  }

  /**
   * Re-validating a stored phone does not give it back: the country code's
   * digits are kept by the stripping, so "+55" plus 10 or 11 digits leaves 12
   * or 13 digits and is rejected.
   */
  lemma {:induction false} CanonicalPhoneRejected(t: string, msgs: MensagensTelefone)
    requires TelefoneCanonico(t)
    ensures Digits(t) == "55" + t[3..]
    ensures TelefoneErros(t, msgs) != []
  {
    assert t == Ddi + t[3..];
    DigitsConcat(Ddi, t[3..]);
    DigitsOfDigitString(t[3..]);
    DigitsOfDdi();
  }

}
