/** The ids and the order record that the wallet store and the billing service share. */
module WalletTypes {
  type DeviceId = nat
  type OrderId = nat

  datatype Order = Order(device: DeviceId, coins: nat, amount: nat, paid: bool, createdAt: nat)
}
