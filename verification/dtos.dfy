/**
 * The request/response records and their Bean Validation constraints. A
 * constraint check yields the set of messages of the constraints the payload
 * violates; a payload is accepted exactly when that set is empty.
 */
module Dtos {
  import opened Wrappers
  import opened Text

  /** Customer payload for create, and the customer view returned by every customer operation. */
  datatype ClienteDTO = ClienteDTO(
    cpf: Option<string>,
    nome: Option<string>,
    email: Option<string>,
    enderecoId: Option<int>)

  /** Customer payload for update: it has no `cpf` field at all. */
  datatype ClienteAtualizacaoDTO = ClienteAtualizacaoDTO(
    nome: Option<string>,
    email: Option<string>,
    enderecoId: Option<int>)

  /** Address payload and view; `id` is read-only on the wire. */
  datatype EnderecoDTO = EnderecoDTO(
    id: Option<int>,
    cep: Option<string>,
    estado: Option<string>,
    cidade: Option<string>,
    bairro: Option<string>,
    rua: Option<string>,
    numero: Option<string>)

  const CpfObrigatorio := "O CPF é obrigatório"
  const NomeObrigatorio := "O nome é obrigatório"
  const EmailObrigatorio := "O email é obrigatório"
  const EnderecoIdObrigatorio := "O id do endereço é obrigatório"
  const CepObrigatorio := "O CEP é obrigatório"
  const EstadoObrigatorio := "O estado é obrigatório"
  const CidadeObrigatoria := "A cidade é obrigatório"
  const BairroObrigatorio := "O bairro é obrigatório"
  const RuaObrigatoria := "A rua é obrigatório"

  /** The message of a `@NotBlank` constraint, if the value violates it. */
  function NotBlankCheck(s: Option<string>, message: string): set<string> {
    if NotBlank(s) then {} else {message}
  }

  /** The message of a `@NotNull` constraint, if the value violates it. */
  function NotNullCheck<T>(v: Option<T>, message: string): set<string> {
    if v.Some? then {} else {message}
  }

  /** Violations of a customer create payload. */
  function ClienteViolations(d: ClienteDTO): (r: set<string>)
    ensures r <= {CpfObrigatorio, NomeObrigatorio, EmailObrigatorio, EnderecoIdObrigatorio}
    ensures r == {} <==> NotBlank(d.cpf) && NotBlank(d.nome) && NotBlank(d.email) && d.enderecoId.Some?
  {
    NotBlankCheck(d.cpf, CpfObrigatorio)
    + NotBlankCheck(d.nome, NomeObrigatorio)
    + NotBlankCheck(d.email, EmailObrigatorio)
    + NotNullCheck(d.enderecoId, EnderecoIdObrigatorio)
  }

  /** Violations of a customer update payload. */
  function AtualizacaoViolations(d: ClienteAtualizacaoDTO): (r: set<string>)
    ensures r <= {NomeObrigatorio, EmailObrigatorio, EnderecoIdObrigatorio}
    ensures r == {} <==> NotBlank(d.nome) && NotBlank(d.email) && d.enderecoId.Some?
  {
    NotBlankCheck(d.nome, NomeObrigatorio)
    + NotBlankCheck(d.email, EmailObrigatorio)
    + NotNullCheck(d.enderecoId, EnderecoIdObrigatorio)
  }

  /** Violations of an address payload; `id` and `numero` carry no constraint. */
  function EnderecoViolations(d: EnderecoDTO): (r: set<string>)
    ensures r <= {CepObrigatorio, EstadoObrigatorio, CidadeObrigatoria, BairroObrigatorio, RuaObrigatoria}
    ensures r == {} <==>
      NotBlank(d.cep) && NotBlank(d.estado) && NotBlank(d.cidade) && NotBlank(d.bairro) && NotBlank(d.rua)
  {
    NotBlankCheck(d.cep, CepObrigatorio)
    + NotBlankCheck(d.estado, EstadoObrigatorio)
    + NotBlankCheck(d.cidade, CidadeObrigatoria)
    + NotBlankCheck(d.bairro, BairroObrigatorio)
    + NotBlankCheck(d.rua, RuaObrigatoria)
  }

  predicate ValidCliente(d: ClienteDTO) {
    ClienteViolations(d) == {}
  }

  predicate ValidAtualizacao(d: ClienteAtualizacaoDTO) {
    AtualizacaoViolations(d) == {}
  }

  predicate ValidEndereco(d: EnderecoDTO) {
    EnderecoViolations(d) == {}
  }

  /** The update payload with the same name, email and address as a create payload. */
  function AsAtualizacao(d: ClienteDTO): ClienteAtualizacaoDTO {
    ClienteAtualizacaoDTO(d.nome, d.email, d.enderecoId)
  }

  /**
   * The update payload is checked by the same constraints as the create
   * payload minus the one on `cpf`.
   */
  lemma AtualizacaoViolationsAreClienteViolationsWithoutCpf(d: ClienteDTO)
    ensures AtualizacaoViolations(AsAtualizacao(d)) == ClienteViolations(d) - {CpfObrigatorio}
  {
  }

  /**
   * Each customer constraint is reported independently: its message is present
   * exactly when its own field fails, whatever the other fields hold.
   */
  lemma ClienteViolationPerField(d: ClienteDTO)
    ensures CpfObrigatorio in ClienteViolations(d) <==> !NotBlank(d.cpf)
    ensures NomeObrigatorio in ClienteViolations(d) <==> !NotBlank(d.nome)
    ensures EmailObrigatorio in ClienteViolations(d) <==> !NotBlank(d.email)
    ensures EnderecoIdObrigatorio in ClienteViolations(d) <==> d.enderecoId.None?
  {
  }

  /**
   * No format check: any non-blank text is accepted as a CPF or an email, and
   * the verdict on the other fields does not depend on which.
   */
  lemma NoFormatCheck(d: ClienteDTO, cpf: Option<string>, email: Option<string>)
    requires NotBlank(cpf) && NotBlank(email)
    ensures ClienteViolations(d.(cpf := cpf, email := email)) == ClienteViolations(d) - {CpfObrigatorio, EmailObrigatorio}
  {
  }

  /** `numero` and `id` are unconstrained: changing them never changes the verdict. */
  lemma EnderecoNumeroAndIdUnconstrained(d: EnderecoDTO, numero: Option<string>, id: Option<int>)
    ensures EnderecoViolations(d.(numero := numero, id := id)) == EnderecoViolations(d)
  {
  }

  /**
   * What the service receives for an address request body: Jackson never
   * writes a read-only property while deserializing, so `id` stays null.
   */
  function FromRequestBody(d: EnderecoDTO): (r: EnderecoDTO)
    ensures r.id.None?
    ensures r.(id := d.id) == d
    ensures EnderecoViolations(r) == EnderecoViolations(d)
  {
    d.(id := None)
  }
}
