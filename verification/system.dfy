/**
 * Both stores together and every service operation except the two listings
 * (`buscarTodos`, methods that change nothing) as a request against
 * them. No request in the source spans both stores atomically; each one
 * below is a single service call.
 */
module Toystore {
  import opened Wrappers
  import opened Domain
  import opened Dtos
  import opened Failures
  import EnderecoService
  import ClienteService
  import GlobalExceptionHandler
  import EnderecoMapper
  import ClienteMapper

  datatype Db = Db(clientes: ClienteService.ClienteStore, enderecos: EnderecoService.EnderecoStore)

  /** Both tables are keyed by their rows' own keys, and the identity column is ahead of every address id. */
  predicate Valid(db: Db) {
    ClienteService.WellKeyed(db.clientes) && EnderecoService.Valid(db.enderecos)
  }

  /** Every customer's address reference resolves to a stored address. */
  predicate ReferencesResolve(db: Db) {
    forall k :: k in db.clientes ==>
      db.clientes[k].enderecoId.Some? && db.clientes[k].enderecoId.value in db.enderecos.rows
  }

  const Empty := Db(map[], EnderecoService.Empty)

  /** A service call; address payloads arrive as request bodies, so their read-only id is dropped. */
  datatype Request =
    | BuscarEndereco(id: int)
    | SalvarEndereco(endereco: EnderecoDTO)
    | AtualizarEndereco(id: int, endereco: EnderecoDTO)
    | DeletarEndereco(id: int)
    | BuscarCliente(cpf: string)
    | SalvarCliente(cliente: ClienteDTO)
    | AtualizarCliente(cpf: string, atualizacao: ClienteAtualizacaoDTO)
    | DeletarCliente(cpf: string)
  {
    predicate IsEnderecoRequest() {
      BuscarEndereco? || SalvarEndereco? || AtualizarEndereco? || DeletarEndereco?
    }
  }

  datatype Reply = ClienteView(cliente: ClienteDTO) | EnderecoView(endereco: EnderecoDTO) | NoContent

  function LiftEndereco<T>(db: Db, r: Step<EnderecoService.EnderecoStore, T>, view: T -> Reply): Step<Db, Reply> {
    match r.result
    case Success(v) => Step(db.(enderecos := r.state), Success(view(v)))
    case Failure(f) => Step(db.(enderecos := r.state), Failure(f))
  }

  function LiftCliente<T>(db: Db, r: Step<ClienteService.ClienteStore, T>, view: T -> Reply): Step<Db, Reply> {
    match r.result
    case Success(v) => Step(db.(clientes := r.state), Success(view(v)))
    case Failure(f) => Step(db.(clientes := r.state), Failure(f))
  }

  function ReadOnly(db: Db, r: Result<Reply, Failure>): Step<Db, Reply> {
    Step(db, r)
  }

  /**
   * One request. Every request keeps both tables well keyed, a failed request
   * writes nothing, address requests never touch customers and customer
   * requests never touch addresses.
   */
  function Apply(db: Db, req: Request): (r: Step<Db, Reply>)
    requires Valid(db)
    ensures Valid(r.state)
    ensures r.result.Failure? ==> r.state == db
    ensures req.IsEnderecoRequest() ==> r.state.clientes == db.clientes
    ensures !req.IsEnderecoRequest() ==> r.state.enderecos == db.enderecos
    ensures !req.DeletarEndereco? && ReferencesResolve(db) ==> ReferencesResolve(r.state)
  {
    match req
    case BuscarEndereco(id) =>
      (match EnderecoService.BuscarPorId(db.enderecos, Some(id))
       case Success(v) => ReadOnly(db, Success(EnderecoView(v)))
       case Failure(f) => ReadOnly(db, Failure(f)))
    case SalvarEndereco(d) =>
      LiftEndereco(db, EnderecoService.Salvar(db.enderecos, FromRequestBody(d)), v => EnderecoView(v))
    case AtualizarEndereco(id, d) =>
      LiftEndereco(db, EnderecoService.Atualizar(db.enderecos, id, FromRequestBody(d)), v => EnderecoView(v))
    case DeletarEndereco(id) =>
      LiftEndereco(db, EnderecoService.DeletarPorId(db.enderecos, id), (_: ()) => NoContent)
    case BuscarCliente(cpf) =>
      (match ClienteService.BuscarPorId(db.clientes, cpf)
       case Success(v) => ReadOnly(db, Success(ClienteView(v)))
       case Failure(f) => ReadOnly(db, Failure(f)))
    case SalvarCliente(d) =>
      LiftCliente(db, ClienteService.Salvar(db.clientes, db.enderecos, d), v => ClienteView(v))
    case AtualizarCliente(cpf, u) =>
      LiftCliente(db, ClienteService.Atualizar(db.clientes, db.enderecos, cpf, u), v => ClienteView(v))
    case DeletarCliente(cpf) =>
      LiftCliente(db, ClienteService.DeletarPorId(db.clientes, cpf), (_: ()) => NoContent)
  }

  /**
   * Deleting an address checks no customer: a customer that referred to it
   * stays, and its reference no longer resolves.
   */
  lemma DeleteCanLeaveDanglingReference(db: Db, cpf: string, id: int)
    requires Valid(db) && cpf in db.clientes && db.clientes[cpf].enderecoId == Some(id)
    requires id in db.enderecos.rows
    ensures var r := Apply(db, DeletarEndereco(id));
      && r.result.Success?
      && r.state.clientes[cpf] == db.clientes[cpf]
      && !ReferencesResolve(r.state)
  {
  }

  /** The payload shape a request carries, checked as the controller's `@Valid` would. */
  predicate PayloadValid(req: Request) {
    match req
    case SalvarEndereco(d) => ValidEndereco(d)
    case AtualizarEndereco(_, d) => ValidEndereco(d)
    case SalvarCliente(d) => ValidCliente(d)
    case AtualizarCliente(_, u) => ValidAtualizacao(u)
    case _ => true
  }

  /**
   * A request whose payload passes validation can fail only in a way the
   * exception handler translates: a 404 or a 409, never an internal error.
   */
  lemma ValidatedFailuresAreHandled(db: Db, req: Request)
    requires Valid(db) && PayloadValid(req)
    ensures var r := Apply(db, req);
      r.result.Failure? ==> GlobalExceptionHandler.Handle(r.result.error).Some?
  {
  }

  /** Without validation a null CPF reaches the repository, and nothing translates that failure. */
  lemma NullCpfIsUnhandled(db: Db, d: ClienteDTO)
    requires Valid(db) && d.cpf.None?
    ensures GlobalExceptionHandler.Handle(Apply(db, SalvarCliente(d)).result.error).None?
  {
  }

  /** A duplicate CPF is answered with 409 and the conflict message, whatever the address. */
  lemma DuplicateCpfIsConflict(db: Db, d: ClienteDTO)
    requires Valid(db) && d.cpf.Some? && d.cpf.value in db.clientes
    ensures var r := Apply(db, SalvarCliente(d));
      && r.state == db
      && GlobalExceptionHandler.Handle(r.result.error)
         == Some(GlobalExceptionHandler.ErrorResponse(GlobalExceptionHandler.CONFLICT, CpfJaCadastrado(d.cpf.value)))
  {
  }

  const ScenarioEndereco := EnderecoDTO(None, Some("12345-678"), Some("Bahia"), Some("Salvador"),
                                        Some("Centro"), Some("Rua das Flores"), Some("123"))
  const ScenarioCpf := "12345678900"
  const ScenarioCliente := ClienteDTO(Some(ScenarioCpf), Some("Pablo Marçal"), Some("pablomarcal@dinheiro.com"), Some(1))
  const ScenarioUpdate := ClienteAtualizacaoDTO(Some("Novo Nome"), Some("novo@mail.com"), Some(1))
  const ScenarioUpdated := ClienteDTO(Some(ScenarioCpf), Some("Novo Nome"), Some("novo@mail.com"), Some(1))

  /** The stored rows the scenario expects, written out field by field. */
  const EnderecoRow := Endereco(Some(1), Some("12345-678"), Some("Bahia"), Some("Salvador"),
                                Some("Centro"), Some("Rua das Flores"), Some("123"))
  const ClienteRow := Cliente(Some("12345678900"), Some("Pablo Marçal"), Some("pablomarcal@dinheiro.com"), Some(1))
  const UpdatedRow := Cliente(Some("12345678900"), Some("Novo Nome"), Some("novo@mail.com"), Some(1))

  const WithEndereco := Db(map[], EnderecoService.EnderecoStore(map[1 := EnderecoRow], 2))
  const WithCliente := WithEndereco.(clientes := map[ScenarioCpf := ClienteRow])
  const WithUpdated := WithEndereco.(clientes := map[ScenarioCpf := UpdatedRow])

  lemma ScenarioSalvarEndereco()
    ensures Apply(Empty, SalvarEndereco(ScenarioEndereco)) == Step(WithEndereco, Success(EnderecoView(ScenarioEndereco.(id := Some(1)))))
  {
    var r := EnderecoService.Salvar(EnderecoService.Empty, ScenarioEndereco);
    assert r.result.value.id == Some(1);
  }

  lemma ScenarioSalvarCliente()
    ensures Valid(WithEndereco)
    ensures Apply(WithEndereco, SalvarCliente(ScenarioCliente)) == Step(WithCliente, Success(ClienteView(ScenarioCliente)))
  {
  }

  lemma ScenarioSalvarDuplicado()
    ensures Valid(WithCliente)
    ensures Apply(WithCliente, SalvarCliente(ScenarioCliente)) == Step(WithCliente, Failure(Conflict(CpfJaCadastrado(ScenarioCpf))))
  {
  }

  lemma ScenarioAtualizar()
    ensures Valid(WithCliente)
    ensures Apply(WithCliente, AtualizarCliente(ScenarioCpf, ScenarioUpdate)) == Step(WithUpdated, Success(ClienteView(ScenarioUpdated)))
  {
    var r := ClienteService.Atualizar(WithCliente.clientes, WithCliente.enderecos, ScenarioCpf, ScenarioUpdate);
    assert r.result.value == ScenarioUpdated;
    assert WithCliente.clientes[ScenarioCpf := UpdatedRow] == WithUpdated.clientes;
  }

  lemma ScenarioDeletarEBuscar()
    ensures Valid(WithUpdated)
    ensures Apply(WithUpdated, DeletarCliente(ScenarioCpf)) == Step(WithEndereco, Success(NoContent))
    ensures Apply(WithEndereco, BuscarCliente(ScenarioCpf)).result == Failure(NotFound(ClienteNaoEncontrado(ScenarioCpf)))
  {
    assert map[ScenarioCpf := UpdatedRow] - {ScenarioCpf} == map[];
  }
}
