/**
 * The customer service over a CPF-keyed store. It reads the address store only
 * through the address service's lookup, and never writes it.
 */
module ClienteService {
  import opened Wrappers
  import opened Domain
  import opened Dtos
  import opened Failures
  import ClienteMapper
  import EnderecoService
  import Listing

  type ClienteStore = map<string, Cliente>

  /** Every customer row is stored under its own CPF. */
  predicate WellKeyed(c: ClienteStore) {
    forall k :: k in c ==> c[k].cpf == Some(k)
  }

  /** The address id is non-null and stored. */
  predicate EnderecoExiste(s: EnderecoService.EnderecoStore, id: Option<int>) {
    id.Some? && id.value in s.rows
  }

  /** Finds a customer by CPF. */
  function BuscarPorId(c: ClienteStore, cpf: string): (r: Result<ClienteDTO, Failure>)
    ensures r.Success? <==> cpf in c
    ensures r.Failure? ==> r.error == NotFound(ClienteNaoEncontrado(cpf))
    ensures r.Success? ==> ClienteMapper.ToEntity(r.value) == c[cpf]
    ensures WellKeyed(c) && r.Success? ==> r.value.cpf == Some(cpf)
  {
    if cpf in c then Success(ClienteMapper.ToDto(c[cpf]))
    else Failure(NotFound(ClienteNaoEncontrado(cpf)))
  }

  /** Lists every stored customer exactly once; never fails, and an empty store gives an empty list. */
  method BuscarTodos(c: ClienteStore) returns (r: seq<ClienteDTO>)
    ensures |r| == |c|
    ensures forall k :: k in c ==> ClienteMapper.ToDto(c[k]) in r
    ensures forall i :: 0 <= i < |r| ==> ClienteMapper.ToEntity(r[i]) in c.Values
    ensures WellKeyed(c) ==> forall i, j :: 0 <= i < j < |r| ==> r[i].cpf != r[j].cpf
  {
    var ks := Listing.EnumerateKeys(c.Keys);
    r := seq(|ks|, i requires 0 <= i < |ks| => ClienteMapper.ToDto(c[ks[i]]));
    forall k | k in c
      ensures ClienteMapper.ToDto(c[k]) in r
    {
      var i :| 0 <= i < |ks| && ks[i] == k;
      assert r[i] == ClienteMapper.ToDto(c[k]);
    }
    forall i | 0 <= i < |r|
      ensures ClienteMapper.ToEntity(r[i]) in c.Values
    {
      ClienteMapper.EntityRoundTrip(c[ks[i]]);
    }
    if WellKeyed(c) {
      forall i, j | 0 <= i < j < |r|
        ensures r[i].cpf != r[j].cpf
      {
        CpfOfListed(c, ks[i]);
        CpfOfListed(c, ks[j]);
      }
    }
  }

  lemma CpfOfListed(c: ClienteStore, k: string)
    requires WellKeyed(c) && k in c
    ensures ClienteMapper.ToDto(c[k]).cpf == Some(k)
  {
  }

  /** Fails when the CPF is already taken; a null CPF is rejected by the repository. */
  function VerificarCpfUnico(c: ClienteStore, cpf: Option<string>): (r: Result<(), Failure>)
    ensures r.Success? <==> cpf.Some? && cpf.value !in c
    ensures cpf.None? ==> r == Failure(Unhandled)
    ensures cpf.Some? && cpf.value in c ==> r == Failure(Conflict(CpfJaCadastrado(cpf.value)))
  {
    match cpf
    case None => Failure(Unhandled)
    case Some(k) => if k in c then Failure(Conflict(CpfJaCadastrado(k))) else Success(())
  }

  /**
   * Creates a customer: first the CPF must be free, then the address must
   * exist; only then is the customer written.
   */
  function Salvar(c: ClienteStore, s: EnderecoService.EnderecoStore, d: ClienteDTO): (r: Step<ClienteStore, ClienteDTO>)
    ensures r.result.Success? <==> d.cpf.Some? && d.cpf.value !in c && EnderecoExiste(s, d.enderecoId)
    ensures r.result.Failure? ==> r.state == c
    ensures d.cpf.None? ==> r.result == Failure(Unhandled)
    ensures d.cpf.Some? && d.cpf.value in c ==> r.result == Failure(Conflict(CpfJaCadastrado(d.cpf.value)))
    ensures d.cpf.Some? && d.cpf.value !in c && !EnderecoExiste(s, d.enderecoId) ==>
      r.result == Failure(EnderecoService.BuscarPorId(s, d.enderecoId).error)
    ensures r.result.Success? ==>
      r.result.value == d && r.state == c[d.cpf.value := ClienteMapper.ToEntity(d)]
    ensures WellKeyed(c) ==> WellKeyed(r.state)
  {
    match VerificarCpfUnico(c, d.cpf)
    case Failure(f) => Step(c, Failure(f))
    case Success(_) =>
      match EnderecoService.BuscarPorId(s, d.enderecoId)
      case Failure(f) => Step(c, Failure(f))
      case Success(_) =>
        var e := ClienteMapper.ToEntity(d);
        Step(c[e.cpf.value := e], Success(ClienteMapper.ToDto(e)))
  }

  /**
   * Updates a customer: first the customer must exist, then the new address;
   * name, email and address are replaced and the CPF is kept.
   */
  function Atualizar(c: ClienteStore, s: EnderecoService.EnderecoStore, cpf: string, d: ClienteAtualizacaoDTO)
    : (r: Step<ClienteStore, ClienteDTO>)
    requires WellKeyed(c)
    ensures WellKeyed(r.state)
    ensures r.result.Success? <==> cpf in c && EnderecoExiste(s, d.enderecoId)
    ensures r.result.Failure? ==> r.state == c
    ensures cpf !in c ==> r.result == Failure(NotFound(ClienteNaoEncontrado(cpf)))
    ensures cpf in c && !EnderecoExiste(s, d.enderecoId) ==>
      r.result == Failure(EnderecoService.BuscarPorId(s, d.enderecoId).error)
    ensures r.result.Success? ==>
      && r.result.value == ClienteDTO(Some(cpf), d.nome, d.email, d.enderecoId)
      && r.state == c[cpf := ClienteMapper.ToEntity(r.result.value)]
  {
    match BuscarPorId(c, cpf)
    case Failure(f) => Step(c, Failure(f))
    case Success(found) =>
      var e := ClienteMapper.ToEntity(found);
      match EnderecoService.BuscarPorId(s, d.enderecoId)
      case Failure(f) => Step(c, Failure(f))
      case Success(_) =>
        var updated := ClienteMapper.UpdateFromAtualizacao(d, e);
        Step(c[updated.cpf.value := updated], Success(ClienteMapper.ToDto(updated)))
  }

  /** Removes a customer; the address it referred to is left alone. */
  function DeletarPorId(c: ClienteStore, cpf: string): (r: Step<ClienteStore, ()>)
    ensures r.result.Success? <==> cpf in c
    ensures r.result.Failure? ==> r.state == c && r.result.error == NotFound(ClienteNaoEncontrado(cpf))
    ensures r.result.Success? ==> r.state == c - {cpf}
    ensures WellKeyed(c) ==> WellKeyed(r.state)
  {
    match BuscarPorId(c, cpf)
    case Failure(f) => Step(c, Failure(f))
    case Success(_) => Step(c - {cpf}, Success(()))
  }

  /** A saved customer reads back as the payload. */
  lemma BuscarAfterSalvar(c: ClienteStore, s: EnderecoService.EnderecoStore, d: ClienteDTO)
    requires Salvar(c, s, d).result.Success?
    ensures BuscarPorId(Salvar(c, s, d).state, d.cpf.value) == Success(d)
  {
  }

  /** An updated customer reads back with the new fields and the same CPF. */
  lemma BuscarAfterAtualizar(c: ClienteStore, s: EnderecoService.EnderecoStore, cpf: string, d: ClienteAtualizacaoDTO)
    requires WellKeyed(c) && Atualizar(c, s, cpf, d).result.Success?
    ensures BuscarPorId(Atualizar(c, s, cpf, d).state, cpf) == Success(ClienteDTO(Some(cpf), d.nome, d.email, d.enderecoId))
  {
  }

  /** After a delete the CPF is gone: reading it fails with the not-found message. */
  lemma BuscarAfterDeletar(c: ClienteStore, cpf: string)
    requires cpf in c
    ensures BuscarPorId(DeletarPorId(c, cpf).state, cpf) == Failure(NotFound(ClienteNaoEncontrado(cpf)))
  {
  }

  /** A customer written by a save or an update refers to an address that existed when it was written. */
  lemma WritesCheckTheAddress(c: ClienteStore, s: EnderecoService.EnderecoStore, d: ClienteDTO, cpf: string, u: ClienteAtualizacaoDTO)
    requires WellKeyed(c)
    ensures var r := Salvar(c, s, d);
      r.result.Success? ==> r.state[d.cpf.value].enderecoId.Some? && r.state[d.cpf.value].enderecoId.value in s.rows
    ensures var r := Atualizar(c, s, cpf, u);
      r.result.Success? ==> r.state[cpf].enderecoId.Some? && r.state[cpf].enderecoId.value in s.rows
  {
  }
}
