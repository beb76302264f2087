/**
 * The interface types a virtual machine's network interface can use.
 * Only the three members the network types refer to are modelled.
 */
module NetworkInterface {

  datatype NetworkInterfaceType = Bridge | Masquerade | Sriov
}
