/** Failure-carrying result types shared by every operation of the kiosk core.
    Each error constructor stands for one of the messages the server actions throw. */
module Outcomes {

  datatype Option<+T> = None | Some(value: T)

  /** The business-rule failures of the core, one per distinct thrown message. */
  datatype Error =
    | Unauthorized          // "No autorizado"
    | InvalidAmount         // "Monto inválido"
    | InvalidQuantity       // "La cantidad debe ser mayor a 0"
    | NegativeCost          // "El precio de costo no puede ser negativo"
    | MissingReason         // "Debe especificar un motivo"
    | ProductNotFound       // "Producto no encontrado", or an update of a missing product row
    | ShiftAlreadyOpen      // "Ya hay un turno abierto en el sistema."
    | InvalidOpeningAmounts // "Montos iniciales inválidos"
    | InvalidTimeValue      // the RangeError of rendering an unparseable date
    | ShiftNotFound         // "Turno no encontrado", or an update of a missing shift row
    | TxNotFound            // "Transacción no encontrada"
    | SalesOnly             // "No autorizado: Sólo podés anular ventas."
    | NotYourActiveShift    // "No autorizado: Sólo podés anular ventas de tu turno activo."
    | InvalidSaleTotal      // "Monto inválido de venta"
    | BarcodeInUse(byOtherProduct: bool)

  datatype Result<+T> = Ok(value: T) | Err(error: Error) {
    predicate IsFailure() {
      Err?
    }

    function PropagateFailure<U>(): Result<U>
      requires Err?
    {
      Err(error)
    }

    function Extract(): T
      requires Ok?
    {
      value
    }
  }

  /** A check that either passes or names the failure, like the source's `assert*` helpers. */
  datatype Outcome = Pass | Fail(error: Error)
}
