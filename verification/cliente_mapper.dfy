/** The customer MapStruct mapper: field copies between `Cliente` and its DTOs. */
module ClienteMapper {
  import opened Wrappers
  import opened Domain
  import opened Dtos

  /** Entity to view: the address reference becomes `enderecoId`. */
  function ToDto(e: Cliente): (d: ClienteDTO)
    ensures d.cpf == e.cpf && d.nome == e.nome && d.email == e.email
    ensures d.enderecoId == e.enderecoId
  {
    ClienteDTO(e.cpf, e.nome, e.email, e.enderecoId)
  }

  /** Create payload to entity; mapping the entity back gives the payload again. */
  function ToEntity(d: ClienteDTO): (e: Cliente)
    ensures ToDto(e) == d
  {
    Cliente(d.cpf, d.nome, d.email, d.enderecoId)
  }

  /** Update payload to entity: there is no `cpf` to copy, so it stays null. */
  function ToEntityFromAtualizacao(d: ClienteAtualizacaoDTO): (e: Cliente)
    ensures e.cpf.None?
    ensures ToDto(e) == ClienteDTO(None, d.nome, d.email, d.enderecoId)
  {
    Cliente(None, d.nome, d.email, d.enderecoId)
  }

  /** Copies a create payload onto an entity, ignoring the payload's `cpf`. */
  function UpdateFromDto(d: ClienteDTO, e: Cliente): (r: Cliente)
    ensures r.cpf == e.cpf
    ensures ToDto(r) == d.(cpf := e.cpf)
  {
    e.(nome := d.nome, email := d.email, enderecoId := d.enderecoId)
  }

  /** Copies an update payload onto an entity; the entity keeps its `cpf`. */
  function UpdateFromAtualizacao(d: ClienteAtualizacaoDTO, e: Cliente): (r: Cliente)
    ensures r.cpf == e.cpf
    ensures ToDto(r) == ClienteDTO(e.cpf, d.nome, d.email, d.enderecoId)
  {
    e.(nome := d.nome, email := d.email, enderecoId := d.enderecoId)
  }

  /** The other round trip: an entity read out and mapped back is the same entity. */
  lemma EntityRoundTrip(e: Cliente)
    ensures ToEntity(ToDto(e)) == e
  {
  }

  /** The two `updateFromDto` overloads agree: the `cpf` of a create payload plays no part. */
  lemma UpdateOverloadsAgree(d: ClienteDTO, e: Cliente)
    ensures UpdateFromDto(d, e) == UpdateFromAtualizacao(AsAtualizacao(d), e)
  {
  }

  /** Applying the same update payload twice is the same as applying it once. */
  lemma UpdateFromAtualizacaoIdempotent(d: ClienteAtualizacaoDTO, e: Cliente)
    ensures UpdateFromAtualizacao(d, UpdateFromAtualizacao(d, e)) == UpdateFromAtualizacao(d, e)
  {
  }
}
