/**
  The client options that are passed on to librdkafka (@kafka_config_keys in
  lib/exrdkafka/config.ex), in groups small enough to reason about.
 */
module ConfigKeys {
  /** Told apart by a letter from every name of the same length that the library reserves:
      enable.auto.offset.store, enable.auto.commit and enable.partition.eof. */
  predicate Apart(k: string) {
    (|k| == 24 || |k| == 18 ==> k[8] != 'u') && (|k| == 20 ==> k[0] != 'e')
  }

  predicate Keys1(k: string) {
    k in ["builtin_features", "debug", "connections_max_idle_ms", "delivery_report_only_error", "client_id",
          "bootstrap_servers", "message_max_bytes", "message_copy_max_bytes"]
  }

  lemma Keys1Plain(k: string)
    requires Keys1(k)
    ensures '.' !in k && Apart(k)
  {
  }

  predicate Keys2(k: string) {
    k in ["receive_message_max_bytes", "max_in_flight", "metadata_request_timeout_ms", "statistics_interval_ms",
          "socket_keepalive_enable", "metadata_max_age_ms", "topic_metadata_refresh_interval_ms",
          "topic_metadata_refresh_fast_interval_ms"]
  }

  lemma Keys2Plain(k: string)
    requires Keys2(k)
    ensures '.' !in k && Apart(k)
  {
  }

  predicate Keys3(k: string) {
    k in ["topic_metadata_refresh_sparse", "topic_metadata_propagation_max_ms", "topic_blacklist", "socket_timeout_ms",
          "socket_send_buffer_bytes", "socket_receive_buffer_bytes", "socket_nagle_disable", "socket_max_fails"]
  }

  lemma Keys3Plain(k: string)
    requires Keys3(k)
    ensures '.' !in k && Apart(k)
  {
  }

  predicate Keys4(k: string) {
    k in ["broker_address_ttl", "broker_address_family", "reconnect_backoff_ms", "enabled_events", "log_level",
          "log_queue", "log_thread_name", "enable_random_seed"]
  }

  lemma Keys4Plain(k: string)
    requires Keys4(k)
    ensures '.' !in k && Apart(k)
  {
  }

  predicate Keys5(k: string) {
    k in ["log_connection_close", "api_version_request", "api_version_request_timeout_ms", "api_version_fallback_ms",
          "broker_version_fallback", "security_protocol", "ssl_cipher_suites", "ssl_curves_list"]
  }

  lemma Keys5Plain(k: string)
    requires Keys5(k)
    ensures '.' !in k && Apart(k)
  {
  }

  predicate Keys6(k: string) {
    k in ["ssl_sigalgs_list", "ssl_key_location", "ssl_key_password", "ssl_key_pem", "ssl_certificate_location",
          "ssl_certificate_pem", "ssl_ca_location", "ssl_crl_location"]
  }

  lemma Keys6Plain(k: string)
    requires Keys6(k)
    ensures '.' !in k && Apart(k)
  {
  }

  predicate Keys7(k: string) {
    k in ["ssl_keystore_location", "ssl_keystore_password", "enable_ssl_certificate_verification",
          "ssl_endpoint_identification_algorithm", "sasl_mechanisms", "sasl_kerberos_service_name",
          "sasl_kerberos_principal", "sasl_kerberos_kinit_cmd"]
  }

  lemma Keys7Plain(k: string)
    requires Keys7(k)
    ensures '.' !in k && Apart(k)
  {
  }

  predicate Keys8(k: string) {
    k in ["sasl_kerberos_keytab", "sasl_kerberos_min_time_before_relogin", "sasl_username", "sasl_password",
          "sasl_oauthbearer_config", "enable_sasl_oauthbearer_unsecure_jwt", "group_instance_id", "session_timeout_ms"]
  }

  lemma Keys8Plain(k: string)
    requires Keys8(k)
    ensures '.' !in k && Apart(k)
  {
  }

  predicate Keys9(k: string) {
    k in ["partition_assignment_strategy", "heartbeat_interval_ms", "group_protocol_type",
          "coordinator_query_interval_ms", "max_poll_interval_ms", "auto_commit_interval_ms", "queued_min_messages",
          "queued_max_messages_kbytes"]
  }

  lemma Keys9Plain(k: string)
    requires Keys9(k)
    ensures '.' !in k && Apart(k)
  {
  }

  predicate Keys10(k: string) {
    k in ["fetch_wait_max_ms", "fetch_message_max_bytes", "fetch_max_bytes", "fetch_min_bytes",
          "fetch_error_backoff_ms", "allow_auto_create_topics", "client_rack", "transactional_id"]
  }

  lemma Keys10Plain(k: string)
    requires Keys10(k)
    ensures '.' !in k && Apart(k)
  {
  }

  predicate Keys11(k: string) {
    k in ["transaction_timeout_ms", "check_crcs", "isolation_level", "enable_idempotence", "enable_gapless_guarantee",
          "queue_buffering_max_messages", "queue_buffering_max_kbytes", "queue_buffering_max_ms"]
  }

  lemma Keys11Plain(k: string)
    requires Keys11(k)
    ensures '.' !in k && Apart(k)
  {
  }

  predicate Keys12(k: string) {
    k in ["message_send_max_retries", "retry_backoff_ms", "queue_buffering_backpressure_threshold",
          "compression_codec", "batch_num_messages", "batch_size", "plugin_library_paths",
          "sticky_partitioning_linger_ms"]
  }

  lemma Keys12Plain(k: string)
    requires Keys12(k)
    ensures '.' !in k && Apart(k)
  {
  }

  predicate IsKafkaKey(k: string) {
    Keys1(k) || Keys2(k) || Keys3(k) || Keys4(k) || Keys5(k) || Keys6(k) ||
    Keys7(k) || Keys8(k) || Keys9(k) || Keys10(k) || Keys11(k) || Keys12(k)
  }

  lemma KafkaKeysArePlain(k: string)
    requires IsKafkaKey(k)
    ensures '.' !in k && Apart(k)
  {
    hide Apart, Keys1, Keys2, Keys3, Keys4, Keys5, Keys6, Keys7, Keys8, Keys9, Keys10, Keys11, Keys12;
    if Keys1(k) { Keys1Plain(k); }
    if Keys2(k) { Keys2Plain(k); }
    if Keys3(k) { Keys3Plain(k); }
    if Keys4(k) { Keys4Plain(k); }
    if Keys5(k) { Keys5Plain(k); }
    if Keys6(k) { Keys6Plain(k); }
    if Keys7(k) { Keys7Plain(k); }
    if Keys8(k) { Keys8Plain(k); }
    if Keys9(k) { Keys9Plain(k); }
    if Keys10(k) { Keys10Plain(k); }
    if Keys11(k) { Keys11Plain(k); }
    if Keys12(k) { Keys12Plain(k); }
  }
}
