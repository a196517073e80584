/** Mailbox and node ids (internal/types.go:96-105, mailbox.go:27-30, 411-421). */
module Ids {
  type NodeID = n: nat | n < 256

  const MODULUS := 0x1_0000_0000_0000_0000

  /** A 64-bit mailbox id: 56 bits of sequence number over 8 bits of node id. */
  type MailboxID = n: nat | n < MODULUS

  const MAX_MAILBOX_ID := 72057594037927935

  function NodeOf(id: MailboxID): NodeID { id % 256 }

  function MailboxOnly(id: MailboxID): nat { id / 256 }
}
