/** The record shapes the components and services exchange. Dates are the
    strings the date inputs and the server produce; amounts are exact reals.
    An optional TypeScript field (`driverName?`), or one the services leave
    out of the objects they build, is an `Option`. */
module Records {
  import opened Common

  /** A fuel purchase (`FuelRecord`). */
  datatype FuelRecord = FuelRecord(
    id: string,
    date: string,
    description: string,
    cost: real,
    driverName: Option<string>,
    paidByDriver: Option<bool>)

  /** `Omit<FuelRecord, 'id'>`: what the fuel form edits and the fuel service
      sends. */
  datatype FuelData = FuelData(
    date: string,
    description: string,
    cost: real,
    driverName: Option<string>,
    paidByDriver: Option<bool>)

  /** `MaintenanceFormData`: what the maintenance service sends. */
  datatype MaintenanceData = MaintenanceData(
    date: string,
    description: string,
    cost: real,
    vanNo: string,
    driverName: string,
    paidByDriver: bool)

  /** A vehicle maintenance record (`MaintenanceRecord`). */
  datatype MaintenanceRecord = MaintenanceRecord(
    id: string,
    date: string,
    description: string,
    cost: real,
    vanNo: string,
    driverName: string,
    paidByDriver: Option<bool>)

  /** A cash advance paid to a driver (`AdvanceRecord`). */
  datatype AdvanceRecord = AdvanceRecord(
    id: string,
    date: string,
    driverName: string,
    amount: real)

  /** `Omit<AdvanceRecord, 'id'>` */
  datatype AdvanceData = AdvanceData(
    date: string,
    driverName: string,
    amount: real)

  /** A delivery (`DeliveryRecord`). `advance` may be absent from the data
      (the sample deliveries have none); `totalRent` is a stored figure. */
  datatype DeliveryRecord = DeliveryRecord(
    id: string,
    from: string,
    to: string,
    deliveryDate: string,
    wayment: real,
    numberOfBags: real,
    rentPerBag: real,
    driverName: string,
    driverRent: real,
    miscSpends: real,
    advance: Option<real>,
    totalRent: real)

  /** One delivery as the driver payment table shows it
      (`DriverPaymentRecord`). */
  datatype DriverPaymentRecord = DriverPaymentRecord(
    id: string,
    date: string,
    from: string,
    to: string,
    numberOfBags: real,
    driverName: string,
    driverRent: real)

  /** One delivery as the vendor payment table shows it
      (`VendorPaymentRecord`). */
  datatype VendorPaymentRecord = VendorPaymentRecord(
    id: string,
    date: string,
    from: string,
    to: string,
    numberOfBags: real,
    wayment: real,
    rent: real,
    miscSpends: real,
    advance: real)
}
