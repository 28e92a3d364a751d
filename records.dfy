/** The records the dashboard reads from the backend (`/agendamento`, `/clientes`,
    `/financeiro`, `/usuarios`) and the rows it produces. Dates arrive as strings
    that `new Date(...)` parses; here each one is already the instant it denotes,
    in milliseconds since the epoch. */
module Records {
  import opened Common

  /** Milliseconds in a UTC day. */
  const MsPerDay: int := 86400000

  /** The UTC day number of an instant. `new Date(t).toISOString().split('T')[0]`
      names this day as a `YYYY-MM-DD` string, and distinct days have distinct
      strings, so two instants have the same date string exactly when their day
      numbers agree. Dafny's `/` rounds down for a positive divisor, as the day
      boundary does for instants before the epoch. */
  function DayKey(t: int): int {
    t / MsPerDay
  }

  /** The moment the dashboard is computed (`new Date()`) and the browser's
      local month of any instant (`getMonth() + 1`), which depends on a time
      zone the model does not know. */
  datatype Env = Env(now: int, localMonth: int -> int)

  /** `status` values of a finance entry that the dashboard compares against. */
  const StatusPago: string := "PAGO"
  const StatusPendente: string := "PENDENTE"

  /** The two values of the `Perfil` enum. */
  const PerfilAdmin: string := "admin"
  const PerfilProfissional: string := "profissional"

  /** An appointment (`Agendamento`); `at` is `data_hora`. */
  datatype Appointment = Appointment(
    id: string,
    clientId: string,
    professionalId: string,
    service: string,
    at: int,
    status: string)

  /** A client; `birthDate` is `dataNascimento`. */
  datatype Client = Client(
    id: string,
    name: string,
    email: string,
    phone: string,
    birthDate: int,
    cpf: string)

  /** A finance entry (`Financeiro`); `price` is `preco`, absent when the
      backend leaves it out, and `createdAt` is `data_criacao`. Prices are whole
      amounts in the smallest currency unit. */
  datatype FinanceEntry = FinanceEntry(
    id: string,
    description: string,
    paymentType: string,
    price: Option<int>,
    status: string,
    category: string,
    createdAt: int)

  /** A user account from `/usuarios`; `role` is `cargo`, `services` is
      `servicos` (absent for some accounts) and `profile` is `perfil`. */
  datatype UserRecord = UserRecord(
    id: string,
    name: string,
    role: string,
    email: string,
    services: Option<seq<string>>,
    profile: string)

  /** One row of the "top services" ranking. */
  datatype ServiceCount = ServiceCount(name: string, count: int)

  /** One row of the "next appointments" list. `at` stands for the `data` and
      `hora` strings that are formatted from it for display. */
  datatype UpcomingAppointment = UpcomingAppointment(
    id: string,
    clientId: string,
    service: string,
    at: int,
    value: int,
    status: string)
}
