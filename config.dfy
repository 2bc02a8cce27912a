/** The configuration defaults the core depends on (the service name, the key-value
    store's key prefix and the bus topics). */
module Config {
  const ServiceName: string := "rfq-sync-service"

  const RedisKeyPrefix: string := "rfq_sync:"

  const TopicRfqStatusChanged: string := "rfq.status.changed"
  const TopicRfqSyncToMedusa: string := "rfq.sync.to_medusa"
  const TopicRfqSyncCompleted: string := "rfq.sync.completed"
  const TopicRfqDlq: string := "rfq.dlq"
}
