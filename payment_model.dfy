/** The payment enumerations of the payment table (`PaymentStatus`, `PaymentMethod`). */
module PaymentModel {

  datatype PaymentStatus = Pending | Completed | Failed | Refunded

  /** The request schema admits exactly these two method names ("card", "saved_card"). */
  datatype PaymentMethod = Card | SavedCard
}
