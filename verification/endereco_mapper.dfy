/** The address MapStruct mapper: field copies between `Endereco` and `EnderecoDTO`. */
module EnderecoMapper {
  import opened Wrappers
  import opened Domain
  import opened Dtos

  /** Entity to view, field by field. */
  function ToDto(e: Endereco): (d: EnderecoDTO)
    ensures d.id == e.id && d.cep == e.cep && d.estado == e.estado
    ensures d.cidade == e.cidade && d.bairro == e.bairro
    ensures d.rua == e.rua && d.numero == e.numero
  {
    EnderecoDTO(e.id, e.cep, e.estado, e.cidade, e.bairro, e.rua, e.numero)
  }

  /** View to entity; mapping the entity back gives the view again. */
  function ToEntity(d: EnderecoDTO): (e: Endereco)
    ensures ToDto(e) == d
  {
    Endereco(d.id, d.cep, d.estado, d.cidade, d.bairro, d.rua, d.numero)
  }

  /** Copies every field of the payload onto the entity except `id`, which the entity keeps. */
  function UpdateFromDto(d: EnderecoDTO, e: Endereco): (r: Endereco)
    ensures r.id == e.id
    ensures ToDto(r) == d.(id := e.id)
  {
    e.(cep := d.cep, estado := d.estado, cidade := d.cidade, bairro := d.bairro, rua := d.rua, numero := d.numero)
  }

  /** The other round trip: an entity read out and mapped back is the same entity. */
  lemma EntityRoundTrip(e: Endereco)
    ensures ToEntity(ToDto(e)) == e
  {
  }

  /** Applying the same payload twice is the same as applying it once. */
  lemma UpdateFromDtoIdempotent(d: EnderecoDTO, e: Endereco)
    ensures UpdateFromDto(d, UpdateFromDto(d, e)) == UpdateFromDto(d, e)
  {
  }
}
