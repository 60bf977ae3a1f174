/** Records and enumerations shared by the in-memory engine and the storage services.
    Dates are whole day numbers (a date-only string parses to UTC midnight, so every
    difference between two dates is a whole number of days); money is an integer. */
module Types {

  datatype Option<T> = None | Some(value: T)

  datatype CustomerStatus = Active | Inactive | Blacklisted

  /** The `type: 'client' | 'supplier'` discriminator of a party. */
  datatype PartyKind = Client | Supplier

  datatype EquipmentType = Owned | External

  datatype EquipmentStatus = Available | Rented | Maintenance | Retired

  datatype BookingStatus = Pending | Active | Completed | Cancelled

  datatype PaymentMethod = Cash | Transfer | Credit

  datatype TransactionType = Payment | Invoice | Refund

  datatype Condition = New | Used | Excellent

  datatype UserRole = Admin | Employee

  datatype Customer = Customer(
    id: string,
    name: string,
    kind: PartyKind,
    idNumber: string,
    phone: string,
    email: Option<string>,
    address: Option<string>,
    contactPerson: Option<string>,
    notes: Option<string>,
    balance: int,
    status: CustomerStatus,
    creditLimit: Option<int>)

  datatype Equipment = Equipment(
    id: string,
    name: string,
    serialNumber: string,
    category: string,
    brand: string,
    model: string,
    condition: Condition,
    kind: EquipmentType,
    status: EquipmentStatus,
    dailyRate: int,
    weeklyRate: Option<int>,
    monthlyRate: Option<int>,
    image: Option<string>,
    supplierName: Option<string>,
    supplierCost: Option<int>,
    supplierAgreement: Option<string>)

  /** One line of a booking: the equipment, the rate frozen at booking time, the day count
      and the line total. */
  datatype BookingItem = BookingItem(
    equipmentId: string,
    equipmentName: string,
    dailyRate: int,
    days: int,
    total: int)

  datatype Booking = Booking(
    id: string,
    customerId: string,
    customerName: string,
    items: seq<BookingItem>,
    startDate: int,
    endDate: int,
    totalAmount: int,
    paidAmount: int,
    deposit: int,
    status: BookingStatus,
    notes: Option<string>,
    createdAt: string)

  /** A ledger entry. The amount is signed; which sign an invoice carries depends on the
      writer (see AppEngine and TransactionService). */
  datatype Transaction = Transaction(
    id: string,
    customerId: string,
    bookingId: Option<string>,
    date: int,
    amount: int,
    kind: TransactionType,
    description: string,
    payMethod: Option<PaymentMethod>)

  datatype User = User(
    id: string,
    name: string,
    username: string,
    password: string,
    role: UserRole,
    phone: string,
    active: bool)

  /** `Math.abs` */
  function Magnitude(x: int): (r: int)
    ensures r >= 0 && (r == x || r == -x)
  {
    if x < 0 then -x else x
  }

  /** The equipment ids a booking's lines refer to, in line order. */
  function ItemIds(items: seq<BookingItem>): (r: seq<string>)
    ensures |r| == |items|
    ensures forall i :: 0 <= i < |items| ==> r[i] == items[i].equipmentId
  {
    seq(|items|, i requires 0 <= i < |items| => items[i].equipmentId)
  }
}
