# Livestock marketplace API: credentials and listing search, in Dafny

This project models the account and search logic of a livestock-marketplace
HTTP API (Express + Prisma, TypeScript). Administrators list animals ("gados");
customers ("clientes") browse and search them. The model covers:

- **The credential policy** (`policy.dfy`). `validaSenha` rejects a password
  shorter than 8 characters. Its loop puts each character into one of four
  classes: lower case, upper case, digit, symbol. It rejects the password if
  any class is empty, with one combined message. `validaTelefone` strips the
  non-digits and accepts 10 or 11 digits. The two route files carry the same
  `validaSenha` text, so it is defined once. The two `validaTelefone` copies
  differ only in wording, so they are one method taking a record of messages.
- **The customer routes** (`clientes.dfy`): register, login, password reset
  and the CPF existence check. They run over a store object holding a map
  keyed by CPF, the customer table's unique key.
- **The administrator routes** (`admins.dfy`): register and login over a
  store keyed by e-mail. A successful login also signs a one-hour token.
- **The listing routes** (`gados.dfy`). The photo defaulting and the search
  dispatch are pure functions. Create, update, delete and fetch are methods
  on a store object that holds the listing table as a sequence in table order.

bcrypt and `jsonwebtoken` are not modelled. Each store object is built with
functions standing for `hashSync`, `compareSync` and `sign`. The salt from
`genSaltSync(12)` is a handler parameter. The stores carry invariants that
every handler preserves:

- each row sits under its own key;
- ids are distinct;
- every stored phone is `"+55"` followed by 10 or 11 digits;
- every stored password is an output of the hash function.

JavaScript truthiness of body fields (`!campo`) is modelled explicitly. A text
field passes when it is present and not `""`. A numeric field passes when it
is present and not `0`. So POST `/gados` rejects a price, age or weight of 0.

Behaviour of the code worth knowing:

- The 201 reply of customer and administrator registration returns the
  stored row, including the password hash. So does the 200 reply of the
  password reset.
- The customer route checks the phone before the password. The administrator
  route checks the password first.
- The search lower-cases only the term, not the stored type or breed name.
- A stored phone is not accepted again by the phone rule. Stripping keeps the
  digits of the country code, so `"+55"` plus 11 digits leaves 13 digits.
  `Policy.CanonicalPhoneRejected` states this.

## Model

| member | source | states |
|---|---|---|
| `Policy.ValidaSenha` | routes/clientes.ts:10-41 | the counting loop returns exactly `SenhaErros(senha)`: the length message when shorter than 8, then the single composition message when a class is missing |
| `Policy.SenhaErros` | routes/admins.ts:11-42 | at most 2 messages; empty iff length ≥ 8 and lower, upper, digit and symbol all occur; a short password always gets the length message first; the composition message appears iff a class is missing; no other message ever appears (the administrator copy is the same text) |
| `Policy.ClassOf` | routes/clientes.ts:23-31 | the `/[a-z]/`, `/[A-Z]/`, `/[0-9]/` chain: each of the first three classes holds exactly its character range, and a symbol is exactly a character in none of them, so the order of the tests does not matter |
| `Policy.Count` | routes/clientes.ts:17-32 | a counter never exceeds the length; it is the full length when every character is of its class and 0 when none is |
| `Policy.CountsPartition` | routes/clientes.ts:22-32 | every character is counted in exactly one class: the four counters sum to the password's length |
| `Policy.CountPositiveIff` | routes/clientes.ts:34-38 | a class counter is zero exactly when no character of that class occurs |
| `Policy.ValidaTelefone` | routes/clientes.ts:43-61 | the message list is empty iff the input has 10 or 11 digits; it equals `TelefoneErros`, where the `^\d+$` test on the stripped string is shown to fail only when no digit is left |
| `Policy.TelefoneErros` | routes/clientes.ts:47-58 | empty iff 10 or 11 digits; at most 2 messages; no digits at all gives both messages in order; the digits-only message appears iff the stripped string is empty |
| `Policy.PhoneRuleIgnoresWording` | routes/admins.ts:45-64 | the WhatsApp copy accepts exactly the inputs the customer copy accepts and reports as many messages |
| `Policy.Canonico` | routes/clientes.ts:108-110 | the stored form is a well-formed `"+55"` + 10-or-11-digit phone exactly when the rule's length test passes on the input; its own digits are `"55"` followed by the input's digits |
| `Policy.AcceptedPhoneIsCanonical` | routes/admins.ts:115 | a phone the rule accepts canonicalises to `"+55"` plus 10 or 11 digits |
| `Policy.CanonicalPhoneRejected` | routes/clientes.ts:45-53 | a stored `"+55…"` phone strips to `"55"` plus its digits and is rejected by the rule: the country code is not removed |
| `Text.Digits` | routes/clientes.ts:47 | stripping leaves only digits and never lengthens the input |
| `Text.DigitsConcat` | routes/admins.ts:48 | stripping distributes over concatenation, so it keeps the order of the digits |
| `Text.DigitsIdempotent` | routes/clientes.ts:109 | stripping a stripped string changes nothing |
| `Text.Lower` | routes/gados.ts:147-148 | `termo.toLowerCase()` keeps the length, leaves no upper-case ASCII letter and leaves every other character as it was |
| `Text.Contains` | routes/gados.ts:147-148 | `contains`: the empty term and any prefix are contained; a contained term is no longer than the text |
| `Http.Informado` | routes/clientes.ts:87 | `!campo` on a text field: absent and `""` are rejected, any non-empty string passes |
| `Http.InformadoNum` | routes/gados.ts:41-51 | `!campo` on a numeric field: absent and 0 are rejected, any other number passes |
| `Text.Join` | routes/clientes.ts:97 | `join("; ")` of one message is that message, of two is both around the separator |
| `Clientes.ClienteStore.Cadastrar` | routes/clientes.ts:84-130 | missing field → 400 before any rule; phone errors before password errors, joined with `"; "`; existing CPF → 409 `"CPF já cadastrado."` with the store unchanged; else exactly one row added under the CPF with canonical phone and `hash(senha, salt)` |
| `Clientes.ClienteStore.Login` | routes/clientes.ts:133-167 | 200 iff both fields present, CPF stored and the password matches the stored hash; then the profile without `senha`; every other case the identical 400 `"CPF ou senha incorretos."` |
| `Clientes.ClienteStore.RedefinirSenha` | routes/clientes.ts:170-200 | missing or rule-breaking password → 400, store unchanged; unknown CPF → failed update, store unchanged; else only that row's `senha` becomes the hash of the new password |
| `Clientes.ClienteStore.VerificaCpf` | routes/clientes.ts:203-224 | missing CPF → 400; else `{existe}` is whether the CPF is stored, with 200 for true and 404 for false |
| `Clientes.ExemploAna` | routes/clientes.ts:94-110 | "(11) 98765-4321" passes the phone rule and is stored as "+5511987654321"; "Abc12345!" passes the password rule |
| `Clientes.CenarioCadastroLogin` | routes/clientes.ts:117-163 | a valid registration stores the canonical phone and the hash; the same registration again is 409; login with the registered password returns the profile; a wrong password and an unknown CPF get byte-identical replies |
| `Admins.AdminStore.Cadastrar` | routes/admins.ts:88-137 | missing field → 400; password errors before WhatsApp errors; existing e-mail → 409 `"E-mail já cadastrado para outro administrador."` with the store unchanged; else one row added with `"+55" + digits` and the hash |
| `Admins.AdminStore.Login` | routes/admins.ts:140-183 | 200 iff both fields present, e-mail stored and password matches; then `{id, nome, whats, token}` where the token signs exactly `{admin_logado_id, admin_logado_nome, admin_logado_email, admin_logado_whats}` of the stored row with the configured key for 3600 s; every other case the identical 400 `"Login ou senha incorretos"` |
| `Admins.CenarioCadastroLogin` | routes/admins.ts:121-178 | register then login yields the token for exactly the registered data; re-registering is 409; a wrong password and an unknown e-mail get identical replies |
| `Gados.ComFotoPadrao` | routes/gados.ts:13-16 | the result always has a non-empty photo; a present non-empty photo is kept; otherwise only `foto` changes, to `"/default-image.jpg"` |
| `Gados.AplicaFotoPadrao` | routes/gados.ts:13-16 | the `gados.map`: same length, each element is that listing with its photo defaulted, and no element lacks a photo |
| `Gados.AplicaFotoPadraoPreserva` | routes/gados.ts:154-157 | after defaulting no listing lacks a photo, length and order are kept, and every field other than `foto` is unchanged |
| `Gados.AplicaFotoPadraoIdempotente` | routes/gados.ts:175-178 | defaulting an already defaulted list changes nothing |
| `Gados.AplicaFotoPadraoConcat` | routes/gados.ts:8-22 | defaulting distributes over concatenation |
| `Gados.ParseNumberOfDecimal` | routes/gados.ts:137 | every decimal rendering of a number, with or without a minus sign, is read back as that number |
| `Gados.ParseNumberRejectsText` | routes/gados.ts:139 | a term with any character that is not a digit or a sign is `NaN` |
| `Gados.ParseNumber` | routes/gados.ts:137 | `Number(termo)` on sign-and-digits forms: a number is produced only when every character after the first is a digit; it is non-negative unless the term starts with `-`; a digit string reads as its decimal value |
| `Gados.Classifica` | routes/gados.ts:137-139 | the text branch is taken iff `Number(termo)` is `NaN`, with the lower-cased term; otherwise the price branch with the parsed ceiling; never both |
| `Gados.Filtra` | routes/gados.ts:145-150 | every returned row is a row of the table that satisfies the branch's condition |
| `Gados.Corresponde` | routes/gados.ts:145-150 | the two `where` clauses: the price branch matches only listings at or below the ceiling; the text branch matches when the term begins the type or the breed name (or is empty), and only when the term fits in one of them |
| `Gados.FiltraCompleto` | routes/gados.ts:169-171 | every row satisfying the condition is returned |
| `Gados.FiltraConcat` | routes/gados.ts:141-151 | filtering distributes over concatenation: the table order is kept |
| `Gados.Pesquisa` | routes/gados.ts:135-185 | no search result lacks a photo |
| `Gados.PesquisaPorPreco` | routes/gados.ts:163-181 | a numeric term returns, photo defaulted, exactly the listings with `preco ≤ termo` |
| `Gados.PesquisaPorTexto` | routes/gados.ts:139-159 | a non-numeric term returns, photo defaulted, exactly the listings whose `tipo` or breed name contains the lower-cased term |
| `Gados.ExemplosDeDespacho` | routes/gados.ts:137-139 | `"450"` goes to the price branch with ceiling 450; `"nelore"` goes to the text branch |
| `Gados.IndexOf` | routes/gados.ts:192-197 | finds the position of the row with the given id, or shows that no row has it |
| `Gados.GadoStore.Listar` | routes/gados.ts:8-22 | GET `/` returns every listing, in order, photo defaulted |
| `Gados.GadoStore.Pesquisar` | routes/gados.ts:135-185 | GET `/pesquisa/:termo` returns 200 with `Pesquisa` of the table; no result lacks a photo |
| `Gados.GadoStore.BuscarPorId` | routes/gados.ts:188-211 | unknown id → 404 `"Gado não encontrado"`; an id that is `NaN` → failed query; else the matching listing with its photo defaulted |
| `Gados.GadoStore.Cadastrar` | routes/gados.ts:26-95 | any required field falsy → 400 and nothing created; unknown breed or admin → failed insert, nothing created; else exactly the new listing appended under the next id |
| `Gados.GadoStore.Atualizar` | routes/gados.ts:112-132 | `sexo` or `racasId` missing → 400, nothing changed; with both present, a `NaN` or unknown id or an unknown breed → 400 with the raw error, nothing changed; else only `sexo`, `racasId` and `foto` of the matching row change, with `foto` the placeholder when the body omits it |
| `Gados.GadoStore.Remover` | routes/gados.ts:98-109 | the matching row, and only it, is removed and returned; an unknown id fails and changes nothing |

## Left out

- bcrypt and `jsonwebtoken`: the hash, the comparison and the signature are functions the stores are built with. Salting, the cost factor's effect, constant-time comparison, token verification and expiry against a clock are not modelled. A missing `JWT_KEY` is not modelled either.
- Prisma failures other than the ones named in the table (connection errors, other constraint violations) are not modelled. Every raw error object is one `FalhaBanco` body.
- `Gados.GadoStore.Cadastrar`: an unknown breed or admin is answered with 400 and the raw error body (`FalhaBanco`). The foreign-key message of routes/gados.ts:85-90 is never produced by the model, because whether `connect` raises that error code is a Prisma behaviour not modelled here.
- The read-only listings GET `/` and GET `/:id` of customers and GET `/` of administrators: they select rows without `senha` and hold no logic.
- routes/propostas.ts and routes/racas.ts: create/list/update/delete pass-through with trivial field checks.
- `Number()`: only an optional sign followed by decimal digits, and `""` (read as 0), are parsed. Fractions, exponents, hex, surrounding whitespace and `Infinity` are treated as `NaN`. Prices are integers.
- `toLowerCase` maps only ASCII letters. Database case sensitivity of `contains` is not modelled; the match is exact.
- Password length counts characters (`seq<char>`), not UTF-16 code units.
- The search responses embed the breed record (`include: { racas: true }`). The model returns the listing rows only.
- Database-generated ids are a counter in each store, not UUIDs. `createdAt`/`updatedAt` timestamps are not modelled.
- Row order of `findMany` is taken to be insertion order.
- A `foto: null` in a PUT body is not distinguished from a present value. Body fields of unexpected JSON types are not modelled.
- `console.log` output, and concurrent requests: uniqueness is the store's atomic insert-or-conflict, modelled sequentially.
