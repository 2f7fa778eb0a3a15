# toystore-customer: customer and address services in Dafny

This project models the service layer of the toystore customer service. There are two keyed stores:
- customers (`Cliente`), keyed by CPF, the Brazilian tax ID;
- addresses (`Endereco`), keyed by an id the database's identity column assigns.

Both services offer `buscarPorId`, `buscarTodos`, `salvar`, `atualizar` and `deletarPorId`. They are modelled together with:
- the MapStruct mappers they call;
- the Bean Validation constraints on their request records;
- the controller advice that turns their exceptions into HTTP errors.

Every Java reference is nullable, so every entity and DTO field is an `Option`. Each repository becomes a Dafny `map`. The address table also carries the next identity value, which starts at 1.

A service call is a pure function from the stores and its arguments to a `Step`. A `Step` holds the store after the call and either the returned value or the thrown failure. Failures come in three kinds:
- `NotFound(message)` is `RecursoNaoEncontradoException`.
- `Conflict(message)` is `CPFJaCadastradoException`.
- `Unhandled` stands for any other exception. The only one that can arise here is the repository rejecting a null id.

Because a failed call still returns a store, "a failed call writes nothing" is proved, not built into the types.

Modules follow the source layout:
- `Domain`, `Dtos`: the entities, the request/response records and their constraints.
- `ClienteMapper`, `EnderecoMapper`: the field-copy mappers.
- `Failures`: the failure kinds and their messages.
- `GlobalExceptionHandler`: failure to HTTP error translation.
- `EnderecoService`, `ClienteService`: the two services.
- `Toystore`: both stores together, with every service call except the two `buscarTodos` as a request, used to state the properties that span the two stores. The two `buscarTodos` are methods and change nothing.
- `Text`: the `String` behaviour the core relies on (`trim` and `Long.toString`).
- `Listing`: how `findAll` enumerates a table.

## Model

| member | source | states |
|---|---|---|
| Text.NotBlankIffTrimNonEmpty | src/main/java/com/toystore/customer/application/dto/ClienteDTO.java:9-11 | `@NotBlank` means non-null with a character above U+0020. That holds exactly when `trim()` leaves something, which is how the validator checks it. |
| Text.Trim | src/main/java/com/toystore/customer/application/dto/ClienteDTO.java:9-11 | `String.trim` as `@NotBlank` applies it: the result is no longer than the input and neither begins nor ends with a character at or below U+0020. |
| Text.TrimIsTheMiddle | src/main/java/com/toystore/customer/application/dto/ClienteDTO.java:9-11 | `Trim` removes only characters at or below U+0020, and only from the two ends. Its result is a contiguous slice of the input, and everything before and after that slice is trimmable. |
| Text.NotBlank | src/main/java/com/toystore/customer/application/dto/ClienteDTO.java:9-11 | The `@NotBlank` constraint: non-null and holding a character above U+0020. Its agreement with the `trim()` check is `Text.NotBlankIffTrimNonEmpty`. |
| Text.LongToString | src/main/java/com/toystore/customer/application/usecases/endereco/EnderecoServiceImpl.java:22-24 | How `"…" + id` renders a `Long`: never empty, with a leading minus exactly for negative ids. The digits after any sign read back, in decimal, as the id's magnitude. |
| Text.LongToStringInjective | src/main/java/com/toystore/customer/application/usecases/endereco/EnderecoServiceImpl.java:22-24 | Different ids render to different decimal strings, so a message built from an id names that id. |
| Dtos.ClienteViolations | src/main/java/com/toystore/customer/application/dto/ClienteDTO.java:9-23 | A create payload's violations are drawn from its four constraint messages. The set is empty exactly when cpf, nome and email are not blank and enderecoId is not null. |
| Dtos.AtualizacaoViolations | src/main/java/com/toystore/customer/application/dto/ClienteAtualizacaoDTO.java:9-19 | An update payload is accepted exactly when nome and email are not blank and enderecoId is not null. |
| Dtos.EnderecoViolations | src/main/java/com/toystore/customer/application/dto/EnderecoDTO.java:13-34 | An address payload is accepted exactly when cep, estado, cidade, bairro and rua are not blank. |
| Dtos.ClienteViolationPerField | src/main/java/com/toystore/customer/application/dto/ClienteDTO.java:9-23 | Each create constraint's message is reported exactly when its own field fails, whatever the other fields hold. |
| Dtos.AtualizacaoViolationsAreClienteViolationsWithoutCpf | src/main/java/com/toystore/customer/application/dto/ClienteAtualizacaoDTO.java:7-20 | The update payload is checked by the create payload's constraints minus the CPF one, since it has no cpf field. |
| Dtos.NoFormatCheck | src/main/java/com/toystore/customer/application/dto/ClienteDTO.java:9-23 | There is no CPF or email format check. Replacing cpf and email with any non-blank text removes their two messages and leaves the verdict on the other fields unchanged. |
| Dtos.EnderecoNumeroAndIdUnconstrained | src/main/java/com/toystore/customer/application/dto/EnderecoDTO.java:9-34 | Changing `numero` or `id`, to null or blank included, never changes an address payload's violations. |
| Dtos.FromRequestBody | src/main/java/com/toystore/customer/application/dto/EnderecoDTO.java:9-11 | An address read from a request body has a null id. It agrees with the sent payload everywhere else and gets the same validation verdict. |
| ClienteMapper.ToDto | src/main/java/com/toystore/customer/interfaces/mapper/ClienteMapper.java:19-20 | The view copies cpf, nome and email by name, and its enderecoId is the entity's address reference. |
| ClienteMapper.ToEntity | src/main/java/com/toystore/customer/interfaces/mapper/ClienteMapper.java:13-14 | Round trip: mapping the created entity back to a view gives the payload again. |
| ClienteMapper.EntityRoundTrip | src/main/java/com/toystore/customer/interfaces/mapper/ClienteMapper.java:13-20 | The other round trip: an entity mapped to a view and back is unchanged. |
| ClienteMapper.ToEntityFromAtualizacao | src/main/java/com/toystore/customer/interfaces/mapper/ClienteMapper.java:16-17 | An entity built from an update payload has a null cpf and carries the payload's other fields. |
| ClienteMapper.UpdateFromDto | src/main/java/com/toystore/customer/interfaces/mapper/ClienteMapper.java:22-24 | Copying a create payload keeps the entity's cpf even when the payload's differs. Every other field comes from the payload. |
| ClienteMapper.UpdateFromAtualizacao | src/main/java/com/toystore/customer/interfaces/mapper/ClienteMapper.java:26-28 | Copying an update payload keeps the entity's cpf and sets nome, email and the address reference to the payload's values. |
| ClienteMapper.UpdateOverloadsAgree | src/main/java/com/toystore/customer/interfaces/mapper/ClienteMapper.java:22-28 | The two `updateFromDto` overloads give the same entity: the create payload's cpf plays no part. |
| ClienteMapper.UpdateFromAtualizacaoIdempotent | src/main/java/com/toystore/customer/interfaces/mapper/ClienteMapper.java:26-28 | Applying an update payload twice equals applying it once. |
| EnderecoMapper.ToDto | src/main/java/com/toystore/customer/interfaces/mapper/EnderecoMapper.java:14 | The view copies all seven fields by name: id, cep, estado, cidade, bairro, rua and numero. |
| EnderecoMapper.ToEntity | src/main/java/com/toystore/customer/interfaces/mapper/EnderecoMapper.java:12-14 | Round trip: all seven fields survive view to entity to view. |
| EnderecoMapper.EntityRoundTrip | src/main/java/com/toystore/customer/interfaces/mapper/EnderecoMapper.java:12-14 | All seven fields survive entity to view to entity. |
| EnderecoMapper.UpdateFromDto | src/main/java/com/toystore/customer/interfaces/mapper/EnderecoMapper.java:16-17 | The entity keeps its id, and every other field takes the payload's value. |
| EnderecoMapper.UpdateFromDtoIdempotent | src/main/java/com/toystore/customer/interfaces/mapper/EnderecoMapper.java:16-17 | Applying the same payload twice equals applying it once. |
| Failures.ClienteNaoEncontrado | src/main/java/com/toystore/customer/application/usecases/cliente/ClienteServiceImpl.java:26-28 | The customer-not-found message is the fixed prefix "Cliente não encontrado com o cpf: " followed by the CPF verbatim. |
| Failures.EnderecoNaoEncontrado | src/main/java/com/toystore/customer/application/usecases/endereco/EnderecoServiceImpl.java:22-24 | The address-not-found message is the fixed prefix "Endereço não encontrado com id: " followed by the id in decimal, with a minus sign exactly when the id is negative. The digits read back as the id's magnitude. |
| Failures.CpfJaCadastrado | src/main/java/com/toystore/customer/application/usecases/cliente/ClienteServiceImpl.java:66-67 | The duplicate-CPF message is the CPF verbatim between "CPF " and " já cadastrado no sistema". |
| Failures.ClienteNaoEncontradoInjective | src/main/java/com/toystore/customer/application/usecases/cliente/ClienteServiceImpl.java:26-28 | A customer-not-found message names exactly one CPF. |
| Failures.EnderecoNaoEncontradoInjective | src/main/java/com/toystore/customer/application/usecases/endereco/EnderecoServiceImpl.java:22-24 | An address-not-found message names exactly one id. |
| Failures.CpfJaCadastradoInjective | src/main/java/com/toystore/customer/application/usecases/cliente/ClienteServiceImpl.java:64-69 | A duplicate-CPF message names exactly one CPF. |
| Failures.NotFoundMessagesDistinct | src/main/java/com/toystore/customer/application/usecases/cliente/ClienteServiceImpl.java:51-52 | A missing customer and a missing address fail with the same kind. The message alone tells them apart. |
| GlobalExceptionHandler.Handle | src/main/java/com/toystore/customer/domain/exceptions/GlobalExceptionHandler.java:15-29 | NotFound becomes 404 and Conflict becomes 409, each carrying the failure's message verbatim. Any other failure has no handler here. |
| GlobalExceptionHandler.HandleInjective | src/main/java/com/toystore/customer/domain/exceptions/GlobalExceptionHandler.java:15-29 | The failure's kind and message can both be recovered from the error response. |
| Listing.EnumerateKeys | src/main/java/com/toystore/customer/application/usecases/endereco/EnderecoServiceImpl.java:30 | `findAll` yields every key of the table exactly once, in an order left open. |
| EnderecoService.BuscarPorId | src/main/java/com/toystore/customer/application/usecases/endereco/EnderecoServiceImpl.java:21-26 | Succeeds exactly when the id is stored, returning the stored row under the requested id. Otherwise it fails with NotFound "Endereço não encontrado com id: " + id. A null id fails unhandled. |
| EnderecoService.BuscarTodos | src/main/java/com/toystore/customer/application/usecases/endereco/EnderecoServiceImpl.java:29-34 | Never fails. It returns one view per stored address, with distinct ids, so an empty store gives an empty list. |
| EnderecoService.Salvar | src/main/java/com/toystore/customer/application/usecases/endereco/EnderecoServiceImpl.java:37-41 | Adds exactly one row, under a fresh id above every id in use. The returned view is the payload plus that id. |
| EnderecoService.Atualizar | src/main/java/com/toystore/customer/application/usecases/endereco/EnderecoServiceImpl.java:44-49 | A missing id fails with NotFound and changes nothing. Otherwise only that row changes: it keeps its id and takes every other field from the payload. |
| EnderecoService.DeletarPorId | src/main/java/com/toystore/customer/application/usecases/endereco/EnderecoServiceImpl.java:52-55 | A missing id fails with NotFound and changes nothing. Otherwise exactly that key is removed. |
| EnderecoService.BuscarAfterSalvar | src/main/java/com/toystore/customer/application/usecases/endereco/EnderecoServiceImpl.java:37-41 | A saved address reads back, under its assigned id, as the returned view. |
| EnderecoService.BuscarAfterAtualizar | src/main/java/com/toystore/customer/application/usecases/endereco/EnderecoServiceImpl.java:44-49 | An updated address reads back as the payload under its unchanged id. |
| EnderecoService.BuscarAfterDeletar | src/main/java/com/toystore/customer/application/usecases/endereco/EnderecoServiceImpl.java:52-55 | After a delete, reading the id fails with NotFound. |
| EnderecoService.AtualizarIdempotent | src/main/java/com/toystore/customer/application/usecases/endereco/EnderecoServiceImpl.java:44-49 | Repeating an update changes nothing and returns the same view. |
| ClienteService.BuscarPorId | src/main/java/com/toystore/customer/application/usecases/cliente/ClienteServiceImpl.java:25-30 | Succeeds exactly when the CPF is stored, returning the stored customer with that CPF. Otherwise it fails with NotFound "Cliente não encontrado com o cpf: " + cpf. |
| ClienteService.BuscarTodos | src/main/java/com/toystore/customer/application/usecases/cliente/ClienteServiceImpl.java:33-38 | Never fails. It returns one view per stored customer, with distinct CPFs, so an empty store gives an empty list. |
| ClienteService.VerificarCpfUnico | src/main/java/com/toystore/customer/application/usecases/cliente/ClienteServiceImpl.java:64-69 | Passes exactly when the CPF is free. A taken CPF fails with Conflict "CPF <cpf> já cadastrado no sistema"; a null CPF fails unhandled. |
| ClienteService.Salvar | src/main/java/com/toystore/customer/application/usecases/cliente/ClienteServiceImpl.java:41-47 | Succeeds exactly when the CPF is non-null and free and the address exists. A taken CPF yields Conflict even when the address is also missing. A fresh CPF with a missing address fails with the address service's own NotFound, unchanged. Every failure leaves the store untouched. On success the store gains exactly one entry, under the payload's CPF, and the payload is returned. |
| ClienteService.Atualizar | src/main/java/com/toystore/customer/application/usecases/cliente/ClienteServiceImpl.java:50-56 | A missing customer yields the customer NotFound before the address is looked at. An existing customer with a missing address yields the address NotFound. Every failure leaves the store untouched. On success only that key changes: it keeps its CPF and takes the payload's nome, email and enderecoId. |
| ClienteService.DeletarPorId | src/main/java/com/toystore/customer/application/usecases/cliente/ClienteServiceImpl.java:59-62 | A missing CPF fails with NotFound and changes nothing. Otherwise exactly that key is removed. |
| ClienteService.BuscarAfterSalvar | src/main/java/com/toystore/customer/application/usecases/cliente/ClienteServiceImpl.java:41-47 | A saved customer reads back as the payload. |
| ClienteService.BuscarAfterAtualizar | src/main/java/com/toystore/customer/application/usecases/cliente/ClienteServiceImpl.java:50-56 | An updated customer reads back with the payload's fields and the same CPF. |
| ClienteService.BuscarAfterDeletar | src/main/java/com/toystore/customer/application/usecases/cliente/ClienteServiceImpl.java:59-62 | After a delete, reading the CPF fails with NotFound. |
| ClienteService.WritesCheckTheAddress | src/main/java/com/toystore/customer/application/usecases/cliente/ClienteServiceImpl.java:41-56 | A customer written by save or update refers to an address stored at that moment. |
| Toystore.Apply | src/main/java/com/toystore/customer/application/usecases/cliente/ClienteServiceImpl.java:20-22 | Every request keeps both tables keyed by their rows' own keys and the identity value ahead of every id. A failed request writes nothing. Address requests never change the customer store, and customer requests never change the address store. Every request except an address delete keeps all address references resolving. |
| Toystore.DeleteCanLeaveDanglingReference | src/main/java/com/toystore/customer/application/usecases/endereco/EnderecoServiceImpl.java:52-55 | In the map model, deleting a referenced address succeeds and leaves its customer in place with a reference that no longer resolves. |
| Toystore.ValidatedFailuresAreHandled | src/main/java/com/toystore/customer/domain/exceptions/GlobalExceptionHandler.java:15-29 | A request whose payload passes validation can only fail with a failure the handler translates (404 or 409). |
| Toystore.NullCpfIsUnhandled | src/main/java/com/toystore/customer/application/usecases/cliente/ClienteServiceImpl.java:42 | Without validation, a create payload with a null CPF fails with a failure no handler translates. |
| Toystore.DuplicateCpfIsConflict | src/main/java/com/toystore/customer/domain/exceptions/GlobalExceptionHandler.java:23-28 | A duplicate CPF writes nothing and is answered with 409 and the conflict message, whatever address it names. |
| Toystore.ScenarioSalvarEndereco | src/main/java/com/toystore/customer/application/usecases/endereco/EnderecoServiceImpl.java:37-41 | The first address saved into an empty store gets id 1. |
| Toystore.ScenarioSalvarCliente | src/main/java/com/toystore/customer/application/usecases/cliente/ClienteServiceImpl.java:41-47 | A customer "12345678900" referring to address 1 is saved and returned unchanged. |
| Toystore.ScenarioSalvarDuplicado | src/main/java/com/toystore/customer/application/usecases/cliente/ClienteServiceImpl.java:64-69 | Saving the same CPF again fails with the conflict message for "12345678900" and writes nothing. |
| Toystore.ScenarioAtualizar | src/main/java/com/toystore/customer/application/usecases/cliente/ClienteServiceImpl.java:50-56 | Updating "12345678900" returns the new name and email with the CPF unchanged. |
| Toystore.ScenarioDeletarEBuscar | src/main/java/com/toystore/customer/application/usecases/cliente/ClienteServiceImpl.java:59-62 | Deleting "12345678900" succeeds, and reading it afterwards fails with NotFound. |

## Left out

- Controllers: HTTP routing, success status codes and OpenAPI annotations are left out. `Toystore.Apply` calls the services directly. Bean Validation is stated as a predicate (`PayloadValid`) but not applied inside `Apply`.
- Persistence: JPA and Spring Data behaviour beyond key-based get, put and delete is left out. The `@ManyToOne` address of a customer is kept only as the referenced id, the one part of it the mappers touch.
- Repository failures other than a null id, such as an unavailable database, are left out. Such a failure would be one more `Unhandled`.
- Error body: its `timestamp` (`LocalDateTime.now()`) is left out. `ErrorResponse` keeps only the status and the message.
- Concurrency: each service call is atomic. The gap between the uniqueness check and the save in customer `salvar` is not modelled.
- Integer width: ids are unbounded integers. The identity value never wraps, and the 64-bit range of `Long` is not enforced.
- Characters: Java strings are UTF-16 code units and Dafny strings are Unicode scalar values. The two agree for everything compared here, namely trimming at U+0020 and message prefixes.
- Whitespace: `Text.NotBlank` counts as whitespace exactly the characters `String.trim` strips (U+0000–U+0020), which is how the constraint's reference implementation checks. Other Unicode spaces, such as U+2003, count as visible.
- EnderecoService.Salvar: requires an id-less payload. A payload that still carried an id would make JPA merge rather than insert, and that merge is not modelled. The read-only `id` (`Dtos.FromRequestBody`) guarantees that no request body carries one.
- EnderecoService.Salvar, EnderecoService.Atualizar, ClienteService.Atualizar, Toystore.Apply: require the store invariant. The invariant is that rows sit under their own key, and that the identity value is past every address id. A database table guarantees it; the model proves every operation preserves it rather than assuming any particular store.
- EnderecoService.BuscarTodos, ClienteService.BuscarTodos: the order of the list is left open, because the repository's `findAll` order is not specified. The contracts state that each row appears exactly once and nothing else appears.
- Toystore.DeleteCanLeaveDanglingReference: describes the map model, which has no foreign key. A schema generated for the `@ManyToOne` address would usually carry one and reject such a delete. An eager load of a customer whose address row is gone would also fail. Neither is modelled.
- The mapper overload `toEntity(ClienteAtualizacaoDTO)` is modelled (`ClienteMapper.ToEntityFromAtualizacao`), but no service calls it.
